/**
 * The debate protocol of `MultiAgentDebateSystem` (multi_agent.py): four expert
 * agents answer independently; if the successful ones agree the best-confident
 * answer is taken, otherwise a consensus agent arbitrates, and if it fails the
 * majority label wins.
 *
 * `asyncio.gather` is modelled as running the agents one after another in list
 * order: they share no state (each has its own key index), so the order only
 * decides the order of the results, which `gather` preserves.
 */
module Debate {
  import opened Wrappers
  import opened Agents
  import opened Votes
  import ResponseExtractor
  import Personas
  import KeyRotation

  /** `DebateMode`. */
  datatype DebateMode = SingleAgent | Unanimous | ConsensusMode | MajorityVote

  /** `DebateMode.value`. */
  function ModeValue(m: DebateMode): string {
    match m
    case SingleAgent => "single_agent"
    case Unanimous => "unanimous"
    case ConsensusMode => "consensus"
    case MajorityVote => "majority_vote"
  }

  /** The inverse of `ModeValue`. */
  function ModeFromValue(s: string): (m: Option<DebateMode>)
    ensures m.Some? ==> ModeValue(m.value) == s
  {
    if s == "single_agent" then Some(SingleAgent)
    else if s == "unanimous" then Some(Unanimous)
    else if s == "consensus" then Some(ConsensusMode)
    else if s == "majority_vote" then Some(MajorityVote)
    else None
  }

  lemma ModeValueRoundTrip(m: DebateMode)
    ensures ModeFromValue(ModeValue(m)) == Some(m)
  {
  }

  /** `DebateResult`. */
  datatype DebateResult = DebateResult(
    mode: DebateMode,
    answer: string,
    confidence: int,
    reasoning: string,
    agentsUsed: nat,
    success: bool,
    votes: Option<VoteTable>,
    agentBreakdown: seq<AgentResponse>,
    consensusAnalysis: Option<AgentResponse>,
    error: Option<string>)

  const AllFailedReasoning: string := "All agents failed to analyze"
  const AllFailedError: string := "All agents failed"
  const MajorityReasoning: string := "Consensus agent failed. Using majority vote from expert agents."
  const KeysRequiredError: string := "At least one API key required"

  /** The answers of `rs`, in order. */
  function Answers(rs: seq<AgentResponse>): (xs: seq<string>)
    ensures |xs| == |rs| && forall i :: 0 <= i < |rs| ==> xs[i] == rs[i].answer
  {
    seq(|rs|, i requires 0 <= i < |rs| => rs[i].answer)
  }

  /** `sum(r.confidence for r in rs)`. */
  function SumConfidence(rs: seq<AgentResponse>): int
    decreases |rs|
  {
    if rs == [] then 0 else SumConfidence(rs[..|rs| - 1]) + rs[|rs| - 1].confidence
  }

  predicate ConfidencesInRange(rs: seq<AgentResponse>) {
    forall i :: 0 <= i < |rs| ==> 0 <= rs[i].confidence <= 100
  }

  /** Confidences in [0, 100] sum to at most 100 per response. */
  lemma {:induction false} SumConfidenceBounds(rs: seq<AgentResponse>)
    requires ConfidencesInRange(rs)
    ensures 0 <= SumConfidence(rs) <= 100 * |rs|
    decreases |rs|
  {
    if rs != [] {
      SumConfidenceBounds(rs[..|rs| - 1]);
    }
  }

  /** The first response with the highest confidence, as `max(rs, key=confidence)`. */
  function BestResponse(rs: seq<AgentResponse>): nat
    requires |rs| > 0
  {
    FirstMaxBy(rs, (r: AgentResponse) => r.confidence)
  }

  /** The first label with the highest count, as `max(votes.items(), key=count)`. */
  function MajorityIndex(votes: VoteTable): nat
    requires |votes| > 0
  {
    FirstMaxBy(votes, (e: (string, nat)) => e.1)
  }

  /** `_single_agent_mode`: the first agent's response, as is (its error text is not
      carried over). */
  function SingleAgentResult(r: AgentResponse): DebateResult {
    DebateResult(SingleAgent, r.answer, r.confidence, r.reasoning, 1, r.success, None, [r], None, None)
  }

  /** The result when no agent succeeded. */
  const AllFailed: DebateResult :=
    DebateResult(SingleAgent, ResponseExtractor.UnknownAnswer, 0, AllFailedReasoning, 0, false,
                 None, [], None, Some(AllFailedError))

  /** `_handle_unanimous`: the first key of the votes, with the confidence and
      reasoning of the first most-confident response. */
  function HandleUnanimous(rs: seq<AgentResponse>, votes: VoteTable): DebateResult
    requires |rs| > 0 && |votes| > 0
  {
    var best := rs[BestResponse(rs)];
    DebateResult(Unanimous, votes[0].0, best.confidence, best.reasoning, |rs|, true,
                 None, rs, None, None)
  }

  /** The result construction of `_handle_disagreement`, given the consensus agent's
      response. */
  function HandleDisagreement(rs: seq<AgentResponse>, votes: VoteTable, consensus: AgentResponse): DebateResult
    requires |rs| > 0 && |votes| > 0
  {
    if consensus.success then
      DebateResult(ConsensusMode, consensus.answer, consensus.confidence, consensus.reasoning,
                   |rs| + 1, true, Some(votes), rs, Some(consensus), None)
    else
      DebateResult(MajorityVote, votes[MajorityIndex(votes)].0, SumConfidence(rs) / |rs|,
                   MajorityReasoning, |rs|, true, Some(votes), rs, None, None)
  }

  /** The decision of `analyze_problem` once round one has produced the successful
      responses `rs`; `consensus` is what the consensus agent answers when asked. */
  function Conclude(rs: seq<AgentResponse>, consensus: AgentResponse): DebateResult {
    if rs == [] then AllFailed
    else
      var votes := Tally(Answers(rs));
      if |votes| == 1 then HandleUnanimous(rs, votes) else HandleDisagreement(rs, votes, consensus)
  }

  predicate AllAgree(rs: seq<AgentResponse>) {
    forall i :: 0 <= i < |rs| ==> rs[i].answer == rs[0].answer
  }

  /** No successful agent: a failed single-agent result that used no agent. */
  lemma ConcludeNoSuccess(consensus: AgentResponse)
    ensures var d := Conclude([], consensus);
      d.mode == SingleAgent && !d.success && d.agentsUsed == 0 && d.error == Some(AllFailedError)
  {
  }

  /** The fast path: one agent used, its success copied, an answer among the four
      letters and "Unknown", a confidence in [0, 100], and the failure shape (Unknown
      with confidence 0) when the agent failed. */
  lemma SingleAgentFastPath(p: AgentProfile, image: PreparedImage, service: Request -> CallResult, idx: nat)
    requires IndexFits(idx, |p.apiKeys|)
    ensures var r := Run(p, image, "", service, idx).response;
      var d := SingleAgentResult(r);
      && d.mode == SingleAgent && d.agentsUsed == 1 && d.success == r.success
      && d.agentBreakdown == [r]
      && d.answer in {"A", "B", "C", "D", ResponseExtractor.UnknownAnswer}
      && 0 <= d.confidence <= 100
      && (!d.success ==> d.answer == ResponseExtractor.UnknownAnswer && d.confidence == 0)
  {
    RunFromResponse(p, image, "", service, 0, idx, []);
  }

  /** Unanimity: the mode is unanimous exactly when all successful agents gave the
      same answer; then that answer is returned with the confidence and reasoning of
      the first response of highest confidence, and every successful agent counts. */
  lemma ConcludeUnanimous(rs: seq<AgentResponse>, consensus: AgentResponse)
    ensures Conclude(rs, consensus).mode == Unanimous <==> rs != [] && AllAgree(rs)
    ensures rs != [] && AllAgree(rs) ==>
      var d := Conclude(rs, consensus);
      && d.answer == rs[0].answer && d.agentsUsed == |rs| && d.success
      && exists k :: 0 <= k < |rs|
           && d.confidence == rs[k].confidence && d.reasoning == rs[k].reasoning
           && (forall j :: 0 <= j < |rs| ==> rs[j].confidence <= rs[k].confidence)
           && (forall j :: 0 <= j < k ==> rs[j].confidence < rs[k].confidence)
  {
    var xs := Answers(rs);
    UnanimityIsOneLabel(xs);
    if rs != [] && AllAgree(rs) {
      TallyFacts(xs);
      var t := Tally(xs);
      assert t[0].0 in xs;
      var k := BestResponse(rs);
      assert Conclude(rs, consensus).confidence == rs[k].confidence;
    }
  }

  /** Disagreement settled by the consensus agent: its answer, confidence and reasoning,
      the votes of the experts attached, and one more agent counted. */
  lemma ConcludeByConsensus(rs: seq<AgentResponse>, consensus: AgentResponse)
    requires rs != [] && !AllAgree(rs) && consensus.success
    ensures var d := Conclude(rs, consensus);
      && d.mode == ConsensusMode && d.success
      && d.answer == consensus.answer && d.confidence == consensus.confidence
      && d.reasoning == consensus.reasoning
      && d.agentsUsed == |rs| + 1
      && d.votes == Some(Tally(Answers(rs))) && d.consensusAnalysis == Some(consensus)
  {
    UnanimityIsOneLabel(Answers(rs));
  }

  /** Disagreement with a failed consensus agent: the majority vote. The answer is a
      label given by at least as many agents as any other, and of the labels with
      that count it is the one seen first; the confidence is the floor of the mean. */
  lemma ConcludeByMajority(rs: seq<AgentResponse>, consensus: AgentResponse)
    requires rs != [] && !AllAgree(rs) && !consensus.success
    ensures var d := Conclude(rs, consensus);
      var xs := Answers(rs);
      var t := Tally(xs);
      && d.mode == MajorityVote && d.success && d.agentsUsed == |rs|
      && d.confidence == SumConfidence(rs) / |rs|
      && d.answer in xs
      && (forall l :: multiset(xs)[l] <= multiset(xs)[d.answer])
      && Labels(t) == FirstSeen(xs)
      && exists k :: 0 <= k < |t| && t[k].0 == d.answer
           && forall j :: 0 <= j < k ==> multiset(xs)[t[j].0] < multiset(xs)[d.answer]
  {
    var xs := Answers(rs);
    UnanimityIsOneLabel(xs);
    MajorityLabel(xs);
    var t := Tally(xs);
    var k := MajorityIndex(t);
    assert Conclude(rs, consensus).answer == t[k].0;
  }

  /** The promises every path keeps: the confidence stays in [0, 100] when the agents'
      do, success means some agent succeeded, and the agents counted are the
      successful experts plus the consensus agent when it decided. */
  lemma ConcludeInvariants(rs: seq<AgentResponse>, consensus: AgentResponse)
    requires ConfidencesInRange(rs) && 0 <= consensus.confidence <= 100
    ensures var d := Conclude(rs, consensus);
      && 0 <= d.confidence <= 100
      && (d.success <==> rs != [])
      && d.agentsUsed == |rs| + (if d.mode == ConsensusMode then 1 else 0)
      && d.agentBreakdown == rs
  {
    if rs != [] {
      SumConfidenceBounds(rs);
      var n := |rs|;
      MeanBound(SumConfidence(rs), n);
    }
  }

  /** The floor of a mean of values in [0, 100] is in [0, 100]. */
  lemma MeanBound(s: int, n: int)
    requires n > 0 && 0 <= s <= 100 * n
    ensures 0 <= s / n <= 100
  {
    var q := s / n;
    assert q * n <= s && s < q * n + n;
    var d := q - 100;
    assert d * n == q * n - 100 * n;
    KeyRotation.MultipleOutsideWindow(d, n);
    KeyRotation.MultipleOutsideWindow(q, n);
  }

  /** The answers A, A, B, A tally to A 3, B 1, in that order. */
  lemma TallyExample()
    ensures Tally(["A", "A", "B", "A"]) == [("A", 3), ("B", 1)]
  {
    assert ["A", "A", "B", "A"][..3] == ["A", "A", "B"];
    assert ["A", "A", "B"][..2] == ["A", "A"];
    assert ["A", "A"][..1] == ["A"];
    assert Tally(["A"]) == [("A", 1)];
    assert Tally(["A", "A"]) == [("A", 2)];
    assert Lookup([("A", 2)], "B") == 0 by {
      assert [("A", 2)][1..] == [];
    }
    assert Assign([("A", 2)], "B", 1) == [("A", 2), ("B", 1)] by {
      assert [("A", 2)][1..] == [];
    }
    assert Tally(["A", "A", "B"]) == [("A", 2), ("B", 1)];
    assert Assign([("A", 2), ("B", 1)], "A", 3) == [("A", 3), ("B", 1)] by {
      assert [("A", 2), ("B", 1)][1..] == [("B", 1)];
    }
  }

  /** Confidences 90, 85, 70 and 95 sum to 340. */
  lemma SumConfidenceExample(r1: AgentResponse, r2: AgentResponse, r3: AgentResponse, r4: AgentResponse)
    requires r1.confidence == 90 && r2.confidence == 85 && r3.confidence == 70 && r4.confidence == 95
    ensures SumConfidence([r1, r2, r3, r4]) == 340
  {
    assert [r1, r2, r3, r4][..3] == [r1, r2, r3];
    assert [r1, r2, r3][..2] == [r1, r2];
    assert [r1, r2][..1] == [r1];
    assert SumConfidence([r1]) == 90 by {
      assert [r1][..0] == [];
    }
    assert SumConfidence([r1, r2]) == 175;
    assert SumConfidence([r1, r2, r3]) == 245;
  }

  /** Four experts answering A 90, A 85, B 70, A 95 with a failed consensus agent:
      the majority vote picks A with confidence (90+85+70+95) // 4 = 85. */
  lemma MajorityExample(r1: AgentResponse, r2: AgentResponse, r3: AgentResponse, r4: AgentResponse,
                        consensus: AgentResponse)
    requires r1.answer == "A" && r1.confidence == 90
    requires r2.answer == "A" && r2.confidence == 85
    requires r3.answer == "B" && r3.confidence == 70
    requires r4.answer == "A" && r4.confidence == 95
    requires !consensus.success
    ensures var d := Conclude([r1, r2, r3, r4], consensus);
      d.mode == MajorityVote && d.answer == "A" && d.confidence == 85 && d.agentsUsed == 4
      && d.votes == Some([("A", 3), ("B", 1)])
  {
    var rs := [r1, r2, r3, r4];
    assert Answers(rs) == ["A", "A", "B", "A"];
    TallyExample();
    SumConfidenceExample(r1, r2, r3, r4);
    var votes := [("A", 3), ("B", 1)];
    assert MajorityIndex(votes) == 0;
  }

  /** Two agreeing agents with equal confidence: the first one's reasoning is used. */
  lemma UnanimousTieExample(r1: AgentResponse, r2: AgentResponse, consensus: AgentResponse)
    requires r1.answer == "C" && r2.answer == "C" && r1.confidence == 90 && r2.confidence == 90
    ensures var d := Conclude([r1, r2], consensus);
      d.mode == Unanimous && d.answer == "C" && d.confidence == 90 && d.reasoning == r1.reasoning
      && d.agentsUsed == 2
  {
    var rs := [r1, r2];
    assert Answers(rs) == ["C", "C"];
    assert ["C", "C"][..1] == ["C"];
    assert Tally(["C", "C"]) == [("C", 2)];
    assert rs[..1] == [r1];
    assert BestResponse(rs) == 0;
  }

  predicate StartsFit(ps: seq<AgentProfile>, starts: seq<nat>) {
    |ps| == |starts| && forall i :: 0 <= i < |ps| ==> IndexFits(starts[i], |ps[i].apiKeys|)
  }

  /** Round one: what each expert answers with no context from its key index. */
  function RoundOne(ps: seq<AgentProfile>, starts: seq<nat>, image: PreparedImage,
                    service: Request -> CallResult): (rs: seq<AgentResponse>)
    requires StartsFit(ps, starts)
    ensures |rs| == |ps|
  {
    seq(|ps|, i requires 0 <= i < |ps| => Run(ps[i], image, "", service, starts[i]).response)
  }

  /** The experts' key indices after round one. */
  function RoundOneKeys(ps: seq<AgentProfile>, starts: seq<nat>, image: PreparedImage,
                        service: Request -> CallResult): (ks: seq<nat>)
    requires StartsFit(ps, starts)
    ensures |ks| == |ps|
  {
    seq(|ps|, i requires 0 <= i < |ps| => Run(ps[i], image, "", service, starts[i]).keyIndex)
  }

  /** Four runs, one per expert from its own key index, are round one. */
  lemma RoundOneOfFour(ps: seq<AgentProfile>, starts: seq<nat>, image: PreparedImage,
                       service: Request -> CallResult, rs: seq<AgentResponse>, ks: seq<nat>)
    requires StartsFit(ps, starts) && |ps| == 4 && |rs| == 4 && |ks| == 4
    requires forall i :: 0 <= i < 4 ==>
      rs[i] == Run(ps[i], image, "", service, starts[i]).response
      && ks[i] == Run(ps[i], image, "", service, starts[i]).keyIndex
    ensures rs == RoundOne(ps, starts, image, service)
    ensures ks == RoundOneKeys(ps, starts, image, service)
  {
  }

  /** The values `to_dict` produces. An object lists its keys in insertion order
      next to the key-to-value map. */
  datatype Json =
    | JNull
    | JBool(b: bool)
    | JInt(i: int)
    | JString(s: string)
    | JArray(items: seq<Json>)
    | JObject(keys: seq<string>, entries: map<string, Json>)

  /** The key list of an object names each entry once. */
  predicate WellFormedObject(keys: seq<string>, entries: map<string, Json>) {
    NoDuplicates(keys) && entries.Keys == set k | k in keys
  }

  /** `d[key] = value` on an ordered dictionary. */
  function Put(keys: seq<string>, entries: map<string, Json>, key: string, value: Json): (seq<string>, map<string, Json>) {
    (if key in keys then keys else keys + [key], entries[key := value])
  }

  /** Assignment keeps an object well formed. */
  lemma PutWellFormed(keys: seq<string>, entries: map<string, Json>, key: string, value: Json)
    requires WellFormedObject(keys, entries)
    ensures var (keys', entries') := Put(keys, entries, key, value);
      WellFormedObject(keys', entries') && keys'[..|keys|] == keys
  {
    var (keys', entries') := Put(keys, entries, key, value);
    if key !in keys {
      assert keys' == keys + [key];
      assert entries'.Keys == (set k | k in keys) + {key};
    }
  }

  /** `AgentResponse.to_dict`. */
  function AgentToJson(r: AgentResponse): Json {
    JObject(["agent", "answer", "confidence", "reasoning", "success", "error"],
            map["agent" := JString(r.agentName),
                "answer" := JString(r.answer),
                "confidence" := JInt(r.confidence),
                "reasoning" := JString(r.reasoning),
                "success" := JBool(r.success),
                "error" := match r.error case None => JNull case Some(e) => JString(e)])
  }

  function VotesToJson(v: VoteTable): (r: (seq<string>, map<string, Json>))
    decreases |v|
  {
    if v == [] then ([], map[])
    else
      var init := VotesToJson(v[..|v| - 1]);
      Put(init.0, init.1, v[|v| - 1].0, JInt(v[|v| - 1].1))
  }

  function AgentsToJson(rs: seq<AgentResponse>): (js: seq<Json>)
    ensures |js| == |rs|
  {
    seq(|rs|, i requires 0 <= i < |rs| => AgentToJson(rs[i]))
  }

  /** The six keys every result dictionary has. */
  const BaseKeys: seq<string> := ["mode", "answer", "confidence", "reasoning", "agents_used", "success"]

  /** Which optional entries `DebateResult.to_dict` writes: each only when the
      field is truthy (a non-empty dict, a non-empty list, a present response, a
      non-empty string). */
  predicate HasVotes(d: DebateResult) { d.votes.Some? && d.votes.value != [] }
  predicate HasBreakdown(d: DebateResult) { d.agentBreakdown != [] }
  predicate HasAnalysis(d: DebateResult) { d.consensusAnalysis.Some? }
  predicate HasError(d: DebateResult) { d.error.Some? && d.error.value != "" }

  /** The key order of `to_dict`: six fixed keys, then `votes`, `agent_breakdown`,
      `consensus_analysis` and `error` as they are written. */
  function ResultKeys(d: DebateResult): seq<string> {
    BaseKeys
    + (if HasVotes(d) then ["votes"] else [])
    + (if HasBreakdown(d) then ["agent_breakdown"] else [])
    + (if HasAnalysis(d) then ["consensus_analysis"] else [])
    + (if HasError(d) then ["error"] else [])
  }

  function ResultMap(d: DebateResult): map<string, Json> {
    var base := map["mode" := JString(ModeValue(d.mode)),
                    "answer" := JString(d.answer),
                    "confidence" := JInt(d.confidence),
                    "reasoning" := JString(d.reasoning),
                    "agents_used" := JInt(d.agentsUsed),
                    "success" := JBool(d.success)];
    var m1 := if HasVotes(d)
              then base["votes" := JObject(VotesToJson(d.votes.value).0, VotesToJson(d.votes.value).1)]
              else base;
    var m2 := if HasBreakdown(d) then m1["agent_breakdown" := JArray(AgentsToJson(d.agentBreakdown))] else m1;
    var m3 := if HasAnalysis(d) then m2["consensus_analysis" := AgentToJson(d.consensusAnalysis.value)] else m2;
    if HasError(d) then m3["error" := JString(d.error.value)] else m3
  }

  /** `DebateResult.to_dict`. */
  function ResultToJson(d: DebateResult): Json {
    JObject(ResultKeys(d), ResultMap(d))
  }

  /** Reading an agent dictionary back. */
  function AgentFromJson(j: Json): Option<AgentResponse> {
    if !j.JObject? then None
    else
      var m := j.entries;
      if "agent" in m && m["agent"].JString? && "answer" in m && m["answer"].JString?
         && "confidence" in m && m["confidence"].JInt? && "reasoning" in m && m["reasoning"].JString?
         && "success" in m && m["success"].JBool? && "error" in m
         && (m["error"].JNull? || m["error"].JString?)
      then
        Some(AgentResponse(m["agent"].s, m["answer"].s, m["confidence"].i, m["reasoning"].s,
                           m["success"].b, if m["error"].JNull? then None else Some(m["error"].s)))
      else None
  }

  /** Reading a vote dictionary back, in key order. */
  function VotesFromJson(keys: seq<string>, entries: map<string, Json>): Option<VoteTable>
    decreases |keys|
  {
    if keys == [] then Some([])
    else
      var k := keys[|keys| - 1];
      match VotesFromJson(keys[..|keys| - 1], entries)
      case None => None
      case Some(init) =>
        if k in entries && entries[k].JInt? && entries[k].i >= 0 then Some(init + [(k, entries[k].i as nat)])
        else None
  }

  function AgentsFromJson(items: seq<Json>): Option<seq<AgentResponse>>
    decreases |items|
  {
    if items == [] then Some([])
    else match (AgentFromJson(items[0]), AgentsFromJson(items[1..]))
      case (Some(r), Some(rest)) => Some([r] + rest)
      case _ => None
  }

  /** Reading a result dictionary back; absent optional keys take their defaults. */
  function ReadVotes(m: map<string, Json>): Option<Option<VoteTable>> {
    if "votes" !in m then Some(None)
    else if m["votes"].JObject? then
      (match VotesFromJson(m["votes"].keys, m["votes"].entries) case Some(v) => Some(Some(v)) case None => None)
    else None
  }

  function ReadBreakdown(m: map<string, Json>): Option<seq<AgentResponse>> {
    if "agent_breakdown" !in m then Some([])
    else if m["agent_breakdown"].JArray? then AgentsFromJson(m["agent_breakdown"].items)
    else None
  }

  function ReadAnalysis(m: map<string, Json>): Option<Option<AgentResponse>> {
    if "consensus_analysis" !in m then Some(None)
    else (match AgentFromJson(m["consensus_analysis"]) case Some(r) => Some(Some(r)) case None => None)
  }

  function ReadError(m: map<string, Json>): Option<Option<string>> {
    if "error" !in m then Some(None)
    else if m["error"].JString? then Some(Some(m["error"].s))
    else None
  }

  /** Reading a result dictionary back: the six fixed entries must be present with
      the right types, and each optional entry, when present, must read back. */
  function ResultFromJson(j: Json): Option<DebateResult> {
    if !j.JObject? then None
    else
      var m := j.entries;
      var votes, breakdown, analysis, error := ReadVotes(m), ReadBreakdown(m), ReadAnalysis(m), ReadError(m);
      if "mode" in m && m["mode"].JString? && ModeFromValue(m["mode"].s).Some?
         && "answer" in m && m["answer"].JString? && "confidence" in m && m["confidence"].JInt?
         && "reasoning" in m && m["reasoning"].JString? && "agents_used" in m && m["agents_used"].JInt?
         && m["agents_used"].i >= 0 && "success" in m && m["success"].JBool?
         && votes.Some? && breakdown.Some? && analysis.Some? && error.Some?
      then
        Some(DebateResult(ModeFromValue(m["mode"].s).value, m["answer"].s, m["confidence"].i,
                          m["reasoning"].s, m["agents_used"].i as nat, m["success"].b,
                          votes.value, breakdown.value, analysis.value, error.value))
      else None
  }

  /** What survives `to_dict`: an empty vote table and an empty error text are
      dropped like absent ones. */
  function Normalized(d: DebateResult): DebateResult {
    d.(votes := if d.votes == Some([]) then None else d.votes,
       error := if d.error == Some("") then None else d.error)
  }

  lemma AgentRoundTrip(r: AgentResponse)
    ensures AgentFromJson(AgentToJson(r)) == Some(r)
  {
  }

  /** The vote dictionary lists the labels in table order. */
  lemma {:induction false} VotesKeys(v: VoteTable)
    requires NoDuplicates(Labels(v))
    ensures VotesToJson(v).0 == Labels(v)
    decreases |v|
  {
    if v != [] {
      LabelsSnocEq(v);
      LabelsSnoc(v);
      VotesKeys(v[..|v| - 1]);
    }
  }

  /** Reading back a dictionary with one more key at the end adds its entry. */
  lemma VotesFromSnoc(keys: seq<string>, entries: map<string, Json>, k: string, n: nat, init: VoteTable)
    requires k !in keys && VotesFromJson(keys, entries) == Some(init)
    ensures VotesFromJson(keys + [k], entries[k := JInt(n)]) == Some(init + [(k, n)])
  {
    VotesFromUnchanged(keys, entries, k, JInt(n));
    assert (keys + [k])[..|keys|] == keys;
  }

  /** Writing a table bigger by one entry appends its label and sets its count. */
  lemma VotesToJsonSnoc(v: VoteTable)
    requires v != [] && NoDuplicates(Labels(v))
    ensures var r := VotesToJson(v[..|v| - 1]);
      VotesToJson(v) == (r.0 + [v[|v| - 1].0], r.1[v[|v| - 1].0 := JInt(v[|v| - 1].1)])
  {
    LabelsSnoc(v);
    VotesKeys(v[..|v| - 1]);
  }

  /** The vote dictionary reads back as the same table. */
  lemma {:induction false} VotesRoundTrip(v: VoteTable)
    requires NoDuplicates(Labels(v))
    ensures VotesFromJson(VotesToJson(v).0, VotesToJson(v).1) == Some(v)
    decreases |v|
  {
    if v != [] {
      var init := v[..|v| - 1];
      var last := v[|v| - 1];
      LabelsSnoc(v);
      VotesRoundTrip(init);
      VotesToJsonSnoc(v);
      var r := VotesToJson(init);
      VotesFromSnoc(r.0, r.1, last.0, last.1, init);
      assert v == init + [last];
    }
  }

  /** Adding an entry under a key not in the list does not change what is read. */
  lemma {:induction false} VotesFromUnchanged(keys: seq<string>, entries: map<string, Json>, k: string, value: Json)
    requires k !in keys
    ensures VotesFromJson(keys, entries[k := value]) == VotesFromJson(keys, entries)
    decreases |keys|
  {
    if keys != [] {
      VotesFromUnchanged(keys[..|keys| - 1], entries, k, value);
    }
  }

  lemma {:induction false} AgentsRoundTrip(rs: seq<AgentResponse>)
    ensures AgentsFromJson(AgentsToJson(rs)) == Some(rs)
    decreases |rs|
  {
    if rs != [] {
      AgentsRoundTrip(rs[1..]);
      AgentRoundTrip(rs[0]);
      assert AgentsToJson(rs)[1..] == AgentsToJson(rs[1..]);
      assert rs == [rs[0]] + rs[1..];
    }
  }

  /** The entries of a result dictionary, key by key. */
  lemma ResultEntries(d: DebateResult)
    ensures var m := ResultToJson(d).entries;
      && "mode" in m && m["mode"] == JString(ModeValue(d.mode))
      && "answer" in m && m["answer"] == JString(d.answer)
      && "confidence" in m && m["confidence"] == JInt(d.confidence)
      && "reasoning" in m && m["reasoning"] == JString(d.reasoning)
      && "agents_used" in m && m["agents_used"] == JInt(d.agentsUsed)
      && "success" in m && m["success"] == JBool(d.success)
      && ("votes" in m <==> d.votes.Some? && d.votes.value != [])
      && ("votes" in m ==> m["votes"] == JObject(VotesToJson(d.votes.value).0, VotesToJson(d.votes.value).1))
      && ("agent_breakdown" in m <==> d.agentBreakdown != [])
      && ("agent_breakdown" in m ==> m["agent_breakdown"] == JArray(AgentsToJson(d.agentBreakdown)))
      && ("consensus_analysis" in m <==> d.consensusAnalysis.Some?)
      && ("consensus_analysis" in m ==> m["consensus_analysis"] == AgentToJson(d.consensusAnalysis.value))
      && ("error" in m <==> d.error.Some? && d.error.value != "")
      && ("error" in m ==> m["error"] == JString(d.error.value))
  {
    ResultBaseEntries(d);
    ResultVotesEntry(d);
    ResultOtherEntries(d);
  }

  /** The six fixed entries of `d` are in `m`. */
  predicate HasBaseEntries(m: map<string, Json>, d: DebateResult) {
    && "mode" in m && m["mode"] == JString(ModeValue(d.mode))
    && "answer" in m && m["answer"] == JString(d.answer)
    && "confidence" in m && m["confidence"] == JInt(d.confidence)
    && "reasoning" in m && m["reasoning"] == JString(d.reasoning)
    && "agents_used" in m && m["agents_used"] == JInt(d.agentsUsed)
    && "success" in m && m["success"] == JBool(d.success)
  }

  /** Writing an optional entry keeps the six fixed ones. */
  lemma OptionalKeepsBase(m: map<string, Json>, d: DebateResult, key: string, value: Json)
    requires HasBaseEntries(m, d)
    requires |key| == 5 || |key| == 15 || |key| == 18
    ensures HasBaseEntries(m[key := value], d)
  {
  }

  /** The six fixed entries are always written. */
  lemma ResultBaseEntries(d: DebateResult)
    ensures HasBaseEntries(ResultMap(d), d)
  {
    var base := map["mode" := JString(ModeValue(d.mode)),
                    "answer" := JString(d.answer),
                    "confidence" := JInt(d.confidence),
                    "reasoning" := JString(d.reasoning),
                    "agents_used" := JInt(d.agentsUsed),
                    "success" := JBool(d.success)];
    assert HasBaseEntries(base, d);
    var v := if HasVotes(d) then JObject(VotesToJson(d.votes.value).0, VotesToJson(d.votes.value).1) else JNull;
    var m1 := if HasVotes(d) then base["votes" := v] else base;
    if HasVotes(d) { OptionalKeepsBase(base, d, "votes", v); }
    var m2 := if HasBreakdown(d) then m1["agent_breakdown" := JArray(AgentsToJson(d.agentBreakdown))] else m1;
    if HasBreakdown(d) { OptionalKeepsBase(m1, d, "agent_breakdown", JArray(AgentsToJson(d.agentBreakdown))); }
    var a := if HasAnalysis(d) then AgentToJson(d.consensusAnalysis.value) else JNull;
    var m3 := if HasAnalysis(d) then m2["consensus_analysis" := a] else m2;
    if HasAnalysis(d) { OptionalKeepsBase(m2, d, "consensus_analysis", a); }
    var e := if HasError(d) then JString(d.error.value) else JNull;
    var m4 := if HasError(d) then m3["error" := e] else m3;
    if HasError(d) { OptionalKeepsBase(m3, d, "error", e); }
    assert ResultMap(d) == m4;
  }

  /** The votes entry is written exactly when the table is non-empty. */
  lemma ResultVotesEntry(d: DebateResult)
    ensures var m := ResultMap(d);
      && ("votes" in m <==> d.votes.Some? && d.votes.value != [])
      && ("votes" in m ==> m["votes"] == JObject(VotesToJson(d.votes.value).0, VotesToJson(d.votes.value).1))
  {
  }

  /** The breakdown, analysis and error entries are written exactly when present. */
  lemma ResultOtherEntries(d: DebateResult)
    ensures var m := ResultMap(d);
      && ("agent_breakdown" in m <==> d.agentBreakdown != [])
      && ("agent_breakdown" in m ==> m["agent_breakdown"] == JArray(AgentsToJson(d.agentBreakdown)))
      && ("consensus_analysis" in m <==> d.consensusAnalysis.Some?)
      && ("consensus_analysis" in m ==> m["consensus_analysis"] == AgentToJson(d.consensusAnalysis.value))
      && ("error" in m <==> d.error.Some? && d.error.value != "")
      && ("error" in m ==> m["error"] == JString(d.error.value))
  {
  }

  /** `to_dict` loses nothing but empty votes and empty error texts, when the votes
      name each label once, as `_count_votes` produces them. */
  lemma ResultRoundTrip(d: DebateResult)
    requires d.votes.Some? ==> NoDuplicates(Labels(d.votes.value))
    ensures ResultFromJson(ResultToJson(d)) == Some(Normalized(d))
  {
    ResultBaseEntries(d);
    ModeValueRoundTrip(d.mode);
    ReadVotesBack(d);
    ReadBreakdownBack(d);
    ReadAnalysisBack(d);
    ReadErrorBack(d);
  }

  lemma ReadVotesBack(d: DebateResult)
    requires d.votes.Some? ==> NoDuplicates(Labels(d.votes.value))
    ensures ReadVotes(ResultMap(d)) == Some(Normalized(d).votes)
  {
    ResultVotesEntry(d);
    if HasVotes(d) {
      VotesRoundTrip(d.votes.value);
    }
  }

  lemma ReadBreakdownBack(d: DebateResult)
    ensures ReadBreakdown(ResultMap(d)) == Some(d.agentBreakdown)
  {
    ResultOtherEntries(d);
    AgentsRoundTrip(d.agentBreakdown);
  }

  lemma ReadAnalysisBack(d: DebateResult)
    ensures ReadAnalysis(ResultMap(d)) == Some(d.consensusAnalysis)
  {
    ResultOtherEntries(d);
    if d.consensusAnalysis.Some? {
      AgentRoundTrip(d.consensusAnalysis.value);
    }
  }

  lemma ReadErrorBack(d: DebateResult)
    ensures ReadError(ResultMap(d)) == Some(Normalized(d).error)
  {
    ResultOtherEntries(d);
  }

  /** The key list of a result dictionary names each of its entries once, starting
      with the six fixed keys. */
  lemma ResultKeysWellFormed(d: DebateResult)
    ensures var j := ResultToJson(d);
      WellFormedObject(j.keys, j.entries) && j.keys[..6] == BaseKeys
  {
    ResultKeysDistinct(d);
    ResultKeysCoverEntries(d);
  }

  /** The optional keys are not among the fixed ones, nor among each other. */
  lemma OptionalKeysFresh()
    ensures NoDuplicates(BaseKeys)
    ensures "votes" !in BaseKeys
    ensures "agent_breakdown" !in BaseKeys && "agent_breakdown" != "votes"
    ensures "consensus_analysis" !in BaseKeys && "consensus_analysis" !in ["votes", "agent_breakdown"]
    ensures "error" !in BaseKeys && "error" !in ["votes", "agent_breakdown", "consensus_analysis"]
  {
    assert "votes"[0] == 'v' && "error"[0] == 'e';
  }

  lemma ResultKeysDistinct(d: DebateResult)
    ensures NoDuplicates(ResultKeys(d)) && ResultKeys(d)[..6] == BaseKeys
  {
    OptionalKeysFresh();
    var k0 := BaseKeys;
    var k1 := k0 + (if HasVotes(d) then ["votes"] else []);
    AppendFreshKey(k0, k1, "votes");
    var k2 := k1 + (if HasBreakdown(d) then ["agent_breakdown"] else []);
    AppendFreshKey(k1, k2, "agent_breakdown");
    var k3 := k2 + (if HasAnalysis(d) then ["consensus_analysis"] else []);
    AppendFreshKey(k2, k3, "consensus_analysis");
    var k4 := k3 + (if HasError(d) then ["error"] else []);
    AppendFreshKey(k3, k4, "error");
    assert ResultKeys(d) == k4;
    assert k4[..6] == k0;
  }

  lemma ResultKeysCoverEntries(d: DebateResult)
    ensures ResultMap(d).Keys == set k | k in ResultKeys(d)
  {
    forall x ensures x in ResultMap(d) <==> x in ResultKeys(d) {
      var named := x in BaseKeys
        || (x == "votes" && HasVotes(d))
        || (x == "agent_breakdown" && HasBreakdown(d))
        || (x == "consensus_analysis" && HasAnalysis(d))
        || (x == "error" && HasError(d));
      assert x in ResultKeys(d) <==> named;
      assert x in ResultMap(d) <==> named;
    }
  }

  /** Extending a key list by a key it lacks keeps the keys distinct. */
  lemma AppendFreshKey(keys: seq<string>, keys': seq<string>, key: string)
    requires NoDuplicates(keys) && key !in keys
    requires keys' == keys || keys' == keys + [key]
    ensures NoDuplicates(keys') && keys'[..|keys|] == keys
  {
    assert keys'[..|keys|] == keys;
  }

  /**
   * `MultiAgentDebateSystem`: the four experts in their fixed order and the
   * consensus agent, each with the system's keys and configuration and its own key
   * index.
   */
  class MultiAgentDebateSystem {
    const apiKeys: seq<string>
    const config: AgentConfig
    const agents: seq<ChemistryAgent>
    const consensus: ChemistryAgent

    ghost predicate Valid()
      reads this, agents, consensus
    {
      && |agents| == 4
      && (forall i, j :: 0 <= i < j < |agents| ==> agents[i] != agents[j])
      && (forall i :: 0 <= i < |agents| ==> agents[i] != consensus)
      && (forall i :: 0 <= i < |agents| ==> agents[i].Valid())
      && consensus.Valid()
    }

    /** The five agents and their profiles, as the constructor sets them up (these
        fields never change). */
    ghost predicate Staffed() {
      && |agents| == 4
      && agents[0].profile == AgentProfile(Personas.SystematicName, Personas.SystematicPersona, apiKeys, config)
      && agents[1].profile == AgentProfile(Personas.ChouhanName, Personas.ChouhanPersona, apiKeys, config)
      && agents[2].profile == AgentProfile(Personas.BruiceName, Personas.BruicePersona, apiKeys, config)
      && agents[3].profile == AgentProfile(Personas.DevilsAdvocateName, Personas.DevilsAdvocatePersona, apiKeys, config)
      && consensus.profile == AgentProfile(Personas.ConsensusName, Personas.ConsensusPersona, apiKeys, config)
    }

    /** The constructor for a non-empty key list; agents start at key index 0. */
    constructor (apiKeys: seq<string>, config: Option<AgentConfig>)
      requires apiKeys != []
      ensures Valid() && Staffed() && fresh(agents) && fresh(consensus)
      ensures this.apiKeys == apiKeys && this.config == config.GetOr(DefaultConfig)
      ensures forall i :: 0 <= i < |agents| ==> agents[i].currentKeyIndex == 0
      ensures consensus.currentKeyIndex == 0
    {
      this.apiKeys := apiKeys;
      this.config := config.GetOr(DefaultConfig);
      var a0 := new ChemistryAgent(Personas.SystematicName, Personas.SystematicPersona, apiKeys, config);
      var a1 := new ChemistryAgent(Personas.ChouhanName, Personas.ChouhanPersona, apiKeys, config);
      var a2 := new ChemistryAgent(Personas.BruiceName, Personas.BruicePersona, apiKeys, config);
      var a3 := new ChemistryAgent(Personas.DevilsAdvocateName, Personas.DevilsAdvocatePersona, apiKeys, config);
      agents := [a0, a1, a2, a3];
      consensus := new ChemistryAgent(Personas.ConsensusName, Personas.ConsensusPersona, apiKeys, config);
    }

    /** `MultiAgentDebateSystem(api_keys, config)`: the `ValueError` for an empty key
        list, otherwise a fresh system. */
    static method Create(apiKeys: seq<string>, config: Option<AgentConfig>)
      returns (r: Result<MultiAgentDebateSystem, string>)
      ensures apiKeys == [] <==> r.Err?
      ensures r.Err? ==> r.error == KeysRequiredError
      ensures r.Ok? ==> r.value.Valid() && r.value.Staffed() && fresh(r.value) && fresh(r.value.agents) && fresh(r.value.consensus)
                        && r.value.apiKeys == apiKeys
    {
      if apiKeys == [] {
        return Err(KeysRequiredError);
      }
      var s := new MultiAgentDebateSystem(apiKeys, config);
      return Ok(s);
    }

    /** The experts' profiles, in order. */
    function Profiles(): seq<AgentProfile>
      requires |agents| == 4
    {
      [agents[0].profile, agents[1].profile, agents[2].profile, agents[3].profile]
    }

    /** The experts' key indices, in order. */
    ghost function Starts(): seq<nat>
      requires |agents| == 4
      reads this, agents
    {
      [agents[0].currentKeyIndex, agents[1].currentKeyIndex, agents[2].currentKeyIndex, agents[3].currentKeyIndex]
    }

    /** One expert's part of round one: `agents[i].analyze(image)`. */
    method AnalyzeExpert(i: nat, image: PreparedImage, service: Request -> CallResult)
      returns (r: AgentResponse)
      requires Valid() && i < 4
      modifies agents[i]
      ensures Valid()
      ensures var run := Run(Profiles()[i], image, "", service, old(Starts())[i]);
        r == run.response && Starts() == old(Starts())[i := run.keyIndex]
    {
      var delays;
      r, delays := agents[i].Analyze(image, "", service);
    }

    /** `_run_parallel_analysis`: every expert analyses the image with no context; the
        successful responses are kept in agent order, and each expert's key index
        ends where its own run leaves it. */
    method RunParallelAnalysis(image: PreparedImage, service: Request -> CallResult)
      returns (successful: seq<AgentResponse>)
      requires Valid()
      modifies agents
      ensures Valid()
      ensures StartsFit(Profiles(), old(Starts()))
      ensures successful == Successes(RoundOne(Profiles(), old(Starts()), image, service))
      ensures Starts() == RoundOneKeys(Profiles(), old(Starts()), image, service)
    {
      ghost var s0 := Starts();
      ghost var ps := Profiles();
      assert StartsFit(ps, s0);
      var r0 := AnalyzeExpert(0, image, service);
      var r1 := AnalyzeExpert(1, image, service);
      var r2 := AnalyzeExpert(2, image, service);
      var r3 := AnalyzeExpert(3, image, service);
      RoundOneOfFour(ps, s0, image, service, [r0, r1, r2, r3], Starts());
      successful := KeepSuccessful([r0, r1, r2, r3]);
    }

    /** The filter after `asyncio.gather`: the successful responses, in order. */
    static method KeepSuccessful(results: seq<AgentResponse>) returns (successful: seq<AgentResponse>)
      ensures successful == Successes(results)
      ensures forall r :: r in successful ==> r in results && r.success
    {
      successful := [];
      var i := 0;
      while i < |results|
        invariant 0 <= i <= |results|
        invariant successful == Successes(results[..i])
      {
        assert results[..i + 1] == results[..i] + [results[i]];
        SuccessesSnoc(results[..i], results[i]);
        if results[i].success {
          successful := successful + [results[i]];
        }
        i := i + 1;
      }
      assert results[..i] == results;
      SuccessesMembers(results);
    }

    /** `_count_votes`: `votes[answer] = votes.get(answer, 0) + 1` for each response. */
    static method CountVotes(rs: seq<AgentResponse>) returns (votes: VoteTable)
      ensures votes == Tally(Answers(rs))
    {
      votes := [];
      var i := 0;
      while i < |rs|
        invariant 0 <= i <= |rs|
        invariant votes == Tally(Answers(rs[..i]))
      {
        assert Answers(rs[..i + 1])[..i] == Answers(rs[..i]);
        var answer := rs[i].answer;
        votes := Assign(votes, answer, Lookup(votes, answer) + 1);
        i := i + 1;
      }
      assert rs[..|rs|] == rs;
    }

    /** `analyze_problem(image, enable_debate)`. In fast mode the first expert alone;
        otherwise round one, then the decision of `Conclude`, where the consensus agent
        is consulted (with the digest of round one) only on disagreement. */
    method AnalyzeProblem(image: PreparedImage, enableDebate: bool, service: Request -> CallResult)
      returns (result: DebateResult)
      requires Valid()
      modifies agents, consensus
      ensures Valid()
      ensures StartsFit(Profiles(), old(Starts()))
      ensures !enableDebate ==>
        result == SingleAgentResult(old(Run(agents[0].profile, image, "", service, agents[0].currentKeyIndex)).response)
      ensures enableDebate ==>
        var rs := Successes(RoundOne(Profiles(), old(Starts()), image, service));
        result == Conclude(rs, old(Run(consensus.profile, image, Digest(rs), service, consensus.currentKeyIndex)).response)
      ensures !enableDebate ==>
        Starts() == old(Starts())[0 := old(Run(agents[0].profile, image, "", service, agents[0].currentKeyIndex)).keyIndex]
      ensures enableDebate ==> Starts() == RoundOneKeys(Profiles(), old(Starts()), image, service)
      ensures var rs := Successes(RoundOne(Profiles(), old(Starts()), image, service));
        !enableDebate || rs == [] || |Tally(Answers(rs))| == 1 ==>
          consensus.currentKeyIndex == old(consensus.currentKeyIndex)
      ensures var rs := Successes(RoundOne(Profiles(), old(Starts()), image, service));
        enableDebate && rs != [] && |Tally(Answers(rs))| != 1 ==>
          consensus.currentKeyIndex == old(Run(consensus.profile, image, Digest(rs), service, consensus.currentKeyIndex)).keyIndex
    {
      if !enableDebate {
        var r, _ := agents[0].Analyze(image, "", service);
        return SingleAgentResult(r);
      }
      var successes := RunParallelAnalysis(image, service);
      if successes == [] {
        return AllFailed;
      }
      var votes := CountVotes(successes);
      if |votes| == 1 {
        return HandleUnanimous(successes, votes);
      }
      var c, _ := consensus.Synthesize(successes, image, service);
      result := HandleDisagreement(successes, votes, c);
    }
  }
}
