/**
 * One debate agent (`ChemistryAgent` in multi_agent.py): a persona prompt, a list of
 * API keys used round-robin, and `analyze`, which retries a call to the inference
 * service with exponential back-off and parses the reply.
 *
 * The inference service is a parameter: a total function from the request an
 * attempt sends to what came back (a reply text, or the text of the exception the
 * attempt raised). Image preparation (PIL decoding and JPEG re-encoding) is given
 * as its outcome, a `PreparedImage`. The back-off sleeps are not performed; the
 * durations `analyze` would sleep are returned in order.
 */
module Agents {
  import opened Wrappers
  import opened Text
  import KeyRotation
  import ResponseExtractor

  /** `AgentConfig`; times are in seconds. */
  datatype AgentConfig = AgentConfig(
    timeoutSeconds: int,
    maxRetries: int,
    retryDelay: real,
    temperature: real,
    maxOutputTokens: int,
    imageQuality: int,
    apiBaseUrl: string,
    model: string)

  /** The defaults of `AgentConfig()`. */
  const DefaultConfig: AgentConfig :=
    AgentConfig(60, 3, 1.0, 0.7, 2048, 95,
                "https://generativelanguage.googleapis.com/v1beta", "gemini-2.0-flash-exp")

  /** `AgentResponse`; `error` is `None` where the source leaves it at its default. */
  datatype AgentResponse = AgentResponse(
    agentName: string,
    answer: string,
    confidence: int,
    reasoning: string,
    success: bool,
    error: Option<string>)

  /** The response `analyze` returns when it gives up. */
  function Failure(name: string, error: string): AgentResponse {
    AgentResponse(name, ResponseExtractor.UnknownAnswer, 0, "", false, Some(error))
  }

  /** What `_prepare_image` produces for the problem image: the base64 JPEG text, or
      the message of the exception it re-raised. */
  datatype PreparedImage = Prepared(base64: string) | PreparationFailed(reason: string)

  /** One call of `_call_gemini_api`. `attempt` is not sent; it lets a model of the
      outside world answer a retry differently from the first try. */
  datatype Request = Request(
    url: string,
    prompt: string,
    image: string,
    temperature: real,
    maxOutputTokens: int,
    timeoutSeconds: int,
    attempt: nat)

  /** What a call gave back: the candidate text of a 200 reply, or the text of the
      exception raised (a non-200 status, a malformed body, a timeout). */
  datatype CallResult = Reply(text: string) | CallFailed(description: string)

  /** The parts of an agent that never change after construction. */
  datatype AgentProfile = AgentProfile(
    name: string,
    persona: string,
    apiKeys: seq<string>,
    config: AgentConfig)

  const NoKeysError: string := "No API keys configured"
  const MaxRetriesError: string := "Max retries exceeded"
  const ContextHeading: string := "\n\nADDITIONAL CONTEXT:\n"

  /** A key index is meaningful for `n` keys (with no keys it is never used). */
  predicate IndexFits(i: nat, n: nat) {
    n == 0 || i < n
  }

  /** `_build_prompt`: the persona, followed by the context under a heading when the
      context is non-empty. */
  function BuildPrompt(persona: string, context: string): (prompt: string)
    ensures StartsWith(prompt, persona)
  {
    if context != "" then persona + ContextHeading + context else persona
  }

  /** The prompt determines the context: without context it is the persona itself,
      otherwise the persona, the heading, and exactly the context. */
  lemma BuildPromptRecoversContext(persona: string, context: string)
    ensures context == "" <==> BuildPrompt(persona, context) == persona
    ensures context != "" ==>
      BuildPrompt(persona, context)[|persona|..] == ContextHeading + context
  {
    var p := BuildPrompt(persona, context);
    if context != "" {
      assert |p| > |persona|;
    }
  }

  /** The URL of `_call_gemini_api` for one key. */
  function RequestUrl(config: AgentConfig, key: string): string {
    config.apiBaseUrl + "/models/" + config.model + ":generateContent?key=" + key
  }

  /** `2 ** k`. */
  function Pow2(k: nat): (p: nat)
    ensures p >= 1
  {
    if k == 0 then 1 else 2 * Pow2(k - 1)
  }

  /** The sleep before retry `k + 1`: `retry_delay * 2 ** k`. */
  function Backoff(retryDelay: real, k: nat): real {
    retryDelay * Pow2(k) as real
  }

  /** `2 ** k` never decreases as `k` grows. */
  lemma {:induction false} Pow2Monotone(k1: nat, k2: nat)
    requires k1 <= k2
    ensures Pow2(k1) <= Pow2(k2)
    decreases k2
  {
    if k1 < k2 {
      Pow2Monotone(k1, k2 - 1);
    }
  }

  /** With a non-negative `retry_delay`, a later retry never waits less than an
      earlier one. */
  lemma BackoffNonDecreasing(retryDelay: real, k1: nat, k2: nat)
    requires 0.0 <= retryDelay && k1 <= k2
    ensures Backoff(retryDelay, k1) <= Backoff(retryDelay, k2)
  {
    Pow2Monotone(k1, k2);
  }

  /** The `j`-th sleep of a run is `retry_delay * 2 ** j`. */
  predicate ExponentialDelays(delays: seq<real>, retryDelay: real) {
    forall j :: 0 <= j < |delays| ==> delays[j] == Backoff(retryDelay, j)
  }

  /** One attempt, numbered `k`, with the key index at `idx`: prepare the image,
      build the prompt, take the next key, call the service. The second component is
      the key index afterwards: it moves only once a key has been taken. */
  function Attempt(p: AgentProfile, image: PreparedImage, context: string,
                   service: Request -> CallResult, k: nat, idx: nat): (r: (CallResult, nat))
    requires IndexFits(idx, |p.apiKeys|)
    ensures IndexFits(r.1, |p.apiKeys|)
  {
    match image
    case PreparationFailed(reason) => (CallFailed(reason), idx)
    case Prepared(b64) =>
      if |p.apiKeys| == 0 then (CallFailed(NoKeysError), idx)
      else
        var key := p.apiKeys[idx];
        var req := Request(RequestUrl(p.config, key), BuildPrompt(p.persona, context), b64,
                           p.config.temperature, p.config.maxOutputTokens,
                           p.config.timeoutSeconds, k);
        (service(req), KeyRotation.Advance(idx, |p.apiKeys|))
  }

  /** What a call of `analyze` did: its response, the sleeps between attempts, the
      number of attempts made and the key index it left behind. */
  datatype AnalyzeRun = AnalyzeRun(
    response: AgentResponse,
    delays: seq<real>,
    attempts: nat,
    keyIndex: nat)

  /** `analyze` from attempt `k` on, with key index `idx` and the sleeps so far. */
  function RunFrom(p: AgentProfile, image: PreparedImage, context: string,
                   service: Request -> CallResult, k: nat, idx: nat, delays: seq<real>): (run: AnalyzeRun)
    requires IndexFits(idx, |p.apiKeys|)
    ensures IndexFits(run.keyIndex, |p.apiKeys|)
    ensures k <= run.attempts && (k < p.config.maxRetries ==> k < run.attempts)
    decreases if k < p.config.maxRetries then p.config.maxRetries - k else 0
  {
    if k >= p.config.maxRetries then AnalyzeRun(Failure(p.name, MaxRetriesError), delays, k, idx)
    else
      var (outcome, idx') := Attempt(p, image, context, service, k, idx);
      match outcome
      case Reply(text) =>
        var (answer, confidence) := ResponseExtractor.Parse(text);
        AnalyzeRun(AgentResponse(p.name, answer, confidence, text, true, None), delays, k + 1, idx')
      case CallFailed(e) =>
        if k < p.config.maxRetries - 1 then
          RunFrom(p, image, context, service, k + 1, idx', delays + [Backoff(p.config.retryDelay, k)])
        else AnalyzeRun(Failure(p.name, e), delays, k + 1, idx')
  }

  /** A complete call of `analyze` starting from key index `idx`. */
  function Run(p: AgentProfile, image: PreparedImage, context: string,
               service: Request -> CallResult, idx: nat): AnalyzeRun
    requires IndexFits(idx, |p.apiKeys|)
  {
    RunFrom(p, image, context, service, 0, idx, [])
  }

  /** Attempts and sleeps: at most `max_retries` attempts, one sleep fewer than
      attempts, sleeping `retry_delay * 2 ** j` before retry `j + 1`; with
      `max_retries <= 0` no attempt is made and the fallback error is returned; a
      failed run used up every attempt. */
  lemma {:induction false} RunFromAttempts(p: AgentProfile, image: PreparedImage, context: string,
                                           service: Request -> CallResult, k: nat, idx: nat, delays: seq<real>)
    requires IndexFits(idx, |p.apiKeys|)
    requires k == 0 || k < p.config.maxRetries
    requires |delays| == k && ExponentialDelays(delays, p.config.retryDelay)
    ensures var run := RunFrom(p, image, context, service, k, idx, delays);
      && ExponentialDelays(run.delays, p.config.retryDelay)
      && (p.config.maxRetries <= 0 ==>
            run == AnalyzeRun(Failure(p.name, MaxRetriesError), delays, 0, idx))
      && (p.config.maxRetries > 0 ==>
            k < run.attempts <= p.config.maxRetries && |run.delays| == run.attempts - 1)
      && (p.config.maxRetries > 0 && !run.response.success ==> run.attempts == p.config.maxRetries)
    decreases if k < p.config.maxRetries then p.config.maxRetries - k else 0
  {
    var run := RunFrom(p, image, context, service, k, idx, delays);
    if k < p.config.maxRetries {
      var at := Attempt(p, image, context, service, k, idx);
      if at.0.CallFailed? && k < p.config.maxRetries - 1 {
        var d := delays + [Backoff(p.config.retryDelay, k)];
        assert ExponentialDelays(d, p.config.retryDelay) by {
          forall j | 0 <= j < |d| ensures d[j] == Backoff(p.config.retryDelay, j) {
            if j < |delays| { assert d[j] == delays[j]; }
          }
        }
        RunFromAttempts(p, image, context, service, k + 1, at.1, d);
        assert run == RunFrom(p, image, context, service, k + 1, at.1, d);
      } else if at.0.CallFailed? {
        assert run == AnalyzeRun(Failure(p.name, at.0.description), delays, k + 1, at.1);
      } else {
        assert run.delays == delays && run.attempts == k + 1 && run.response.success;
      }
    } else {
      assert run == AnalyzeRun(Failure(p.name, MaxRetriesError), delays, k, idx);
    }
  }

  /** The shape of a response of agent `name`: a success carries the raw reply as
      its reasoning and the answer and confidence parsed from it; a failure carries
      "Unknown", 0, an empty reasoning and an error text; either way the answer is a
      letter or "Unknown" and the confidence lies in [0, 100]. */
  predicate WellShaped(r: AgentResponse, name: string) {
    && r.agentName == name
    && (r.success ==> r.error.None? && (r.answer, r.confidence) == ResponseExtractor.Parse(r.reasoning))
    && (!r.success ==> r.answer == ResponseExtractor.UnknownAnswer && r.confidence == 0
                       && r.reasoning == "" && r.error.Some?)
    && r.answer in {"A", "B", "C", "D", ResponseExtractor.UnknownAnswer}
    && 0 <= r.confidence <= 100
  }

  /** Every response `analyze` can return is well shaped. */
  lemma {:induction false} RunFromResponse(p: AgentProfile, image: PreparedImage, context: string,
                                           service: Request -> CallResult, k: nat, idx: nat, delays: seq<real>)
    requires IndexFits(idx, |p.apiKeys|)
    ensures WellShaped(RunFrom(p, image, context, service, k, idx, delays).response, p.name)
    decreases if k < p.config.maxRetries then p.config.maxRetries - k else 0
  {
    var run := RunFrom(p, image, context, service, k, idx, delays);
    if k >= p.config.maxRetries {
      assert run.response == Failure(p.name, MaxRetriesError);
    } else {
      var (outcome, idx') := Attempt(p, image, context, service, k, idx);
      match outcome
      case Reply(text) =>
        var parsed := ResponseExtractor.Parse(text);
        assert run.response == AgentResponse(p.name, parsed.0, parsed.1, text, true, None);
      case CallFailed(e) =>
        if k < p.config.maxRetries - 1 {
          RunFromResponse(p, image, context, service, k + 1, idx', delays + [Backoff(p.config.retryDelay, k)]);
        } else {
          assert run.response == Failure(p.name, e);
        }
    }
  }

  /** Key rotation across attempts: each attempt that reaches the service takes the
      next key, so after the run the index has moved once per attempt. */
  lemma {:induction false} RunFromKeys(p: AgentProfile, b64: string, context: string,
                                       service: Request -> CallResult, k: nat, idx: nat, delays: seq<real>)
    requires |p.apiKeys| > 0 && idx < |p.apiKeys|
    ensures var run := RunFrom(p, Prepared(b64), context, service, k, idx, delays);
      run.keyIndex == KeyRotation.AdvanceBy(idx, |p.apiKeys|, run.attempts - k)
    decreases if k < p.config.maxRetries then p.config.maxRetries - k else 0
  {
    var n := |p.apiKeys|;
    var run0 := RunFrom(p, Prepared(b64), context, service, k, idx, delays);
    if k >= p.config.maxRetries {
      assert run0.keyIndex == idx && run0.attempts == k;
    } else {
      var (outcome, idx') := Attempt(p, Prepared(b64), context, service, k, idx);
      assert idx' == KeyRotation.Advance(idx, n);
      assert KeyRotation.AdvanceBy(idx, n, 1) == idx';
      if outcome.CallFailed? && k < p.config.maxRetries - 1 {
        var d := delays + [Backoff(p.config.retryDelay, k)];
        var run := RunFrom(p, Prepared(b64), context, service, k + 1, idx', d);
        assert run0 == run;
        RunFromKeys(p, b64, context, service, k + 1, idx', d);
        KeyRotation.AdvanceByShift(idx, n, run.attempts - (k + 1));
      } else {
        assert run0.keyIndex == idx' && run0.attempts == k + 1;
      }
    }
  }

  /** Over a whole call, attempt `j` (from 0) uses key `(idx + j) % len(keys)` and the
      index ends at `(idx + attempts) % len(keys)`. */
  lemma RunKeys(p: AgentProfile, b64: string, context: string,
                service: Request -> CallResult, idx: nat)
    requires |p.apiKeys| > 0 && idx < |p.apiKeys|
    ensures var run := Run(p, Prepared(b64), context, service, idx);
      run.keyIndex == (idx + run.attempts) % |p.apiKeys|
  {
    var run := Run(p, Prepared(b64), context, service, idx);
    RunFromKeys(p, b64, context, service, 0, idx, []);
    KeyRotation.AdvanceByIsModular(idx, |p.apiKeys|, run.attempts);
  }

  /** When the image cannot be prepared, or there are no keys, no key is taken and
      every attempt fails with that same error; the agent reports it and the index
      stays put. */
  lemma {:induction false} RunFromWithoutCall(p: AgentProfile, image: PreparedImage, context: string,
                                              service: Request -> CallResult, k: nat, idx: nat, delays: seq<real>)
    requires IndexFits(idx, |p.apiKeys|)
    requires image.PreparationFailed? || |p.apiKeys| == 0
    requires k < p.config.maxRetries
    ensures var run := RunFrom(p, image, context, service, k, idx, delays);
      && run.keyIndex == idx
      && run.response == Failure(p.name, if image.PreparationFailed? then image.reason else NoKeysError)
    decreases p.config.maxRetries - k
  {
    if k < p.config.maxRetries - 1 {
      RunFromWithoutCall(p, image, context, service, k + 1, idx, delays + [Backoff(p.config.retryDelay, k)]);
    }
  }

  /** A service that never answers makes the agent fail after all its attempts. */
  lemma {:induction false} UnreachableServiceFails(p: AgentProfile, image: PreparedImage, context: string,
                                                   service: Request -> CallResult, k: nat, idx: nat, delays: seq<real>)
    requires IndexFits(idx, |p.apiKeys|)
    requires forall req :: service(req).CallFailed?
    ensures !RunFrom(p, image, context, service, k, idx, delays).response.success
    decreases if k < p.config.maxRetries then p.config.maxRetries - k else 0
  {
    if k < p.config.maxRetries {
      var (outcome, idx') := Attempt(p, image, context, service, k, idx);
      if k < p.config.maxRetries - 1 {
        UnreachableServiceFails(p, image, context, service, k + 1, idx', delays + [Backoff(p.config.retryDelay, k)]);
      }
    }
  }

  /** A reply to the first attempt ends the run at once: one attempt, no sleep, the
      first key, and the response parsed from that reply. */
  lemma FirstReplyEndsRun(p: AgentProfile, b64: string, context: string,
                          service: Request -> CallResult, idx: nat)
    requires |p.apiKeys| > 0 && idx < |p.apiKeys| && p.config.maxRetries > 0
    requires service(Request(RequestUrl(p.config, p.apiKeys[idx]), BuildPrompt(p.persona, context), b64,
                             p.config.temperature, p.config.maxOutputTokens,
                             p.config.timeoutSeconds, 0)).Reply?
    ensures var run := Run(p, Prepared(b64), context, service, idx);
      && run.attempts == 1 && run.delays == [] && run.response.success
      && run.keyIndex == KeyRotation.Advance(idx, |p.apiKeys|)
  {
  }

  const DigestHeader: string := "EXPERT AGENT ANALYSES:\n\n"
  const ExcerptLength: nat := 500

  /** The block `synthesize` writes for one successful agent. */
  function DigestEntry(r: AgentResponse): string {
    Repeat('=', 50) + "\n"
    + r.agentName + ":\n"
    + "Answer: " + r.answer + "\n"
    + "Confidence: " + IntToString(r.confidence) + "%\n"
    + "Key reasoning:\n" + SliceTo(r.reasoning, ExcerptLength) + "...\n\n"
  }

  /** The summary `synthesize` builds: the header, then one block per successful
      response, in order. */
  function Digest(rs: seq<AgentResponse>): (d: string)
    ensures |DigestHeader| <= |d| && d[..|DigestHeader|] == DigestHeader
    decreases |rs|
  {
    if rs == [] then DigestHeader
    else Digest(rs[..|rs| - 1]) + (if rs[|rs| - 1].success then DigestEntry(rs[|rs| - 1]) else "")
  }

  /** The successful responses of `rs`, in order. */
  function Successes(rs: seq<AgentResponse>): (s: seq<AgentResponse>)
    ensures |s| <= |rs|
    decreases |rs|
  {
    if rs == [] then []
    else Successes(rs[..|rs| - 1]) + (if rs[|rs| - 1].success then [rs[|rs| - 1]] else [])
  }

  lemma SuccessesSnoc(rs: seq<AgentResponse>, r: AgentResponse)
    ensures Successes(rs + [r]) == Successes(rs) + (if r.success then [r] else [])
  {
    assert (rs + [r])[..|rs|] == rs;
  }

  /** `Successes` keeps exactly the successful responses. */
  lemma {:induction false} SuccessesMembers(rs: seq<AgentResponse>)
    ensures forall r :: r in Successes(rs) <==> r in rs && r.success
    decreases |rs|
  {
    if rs != [] {
      var init := rs[..|rs| - 1];
      SuccessesMembers(init);
      assert rs == init + [rs[|rs| - 1]];
    }
  }

  /** Failed responses add nothing to the digest: it equals the digest of the
      successes alone. */
  lemma {:induction false} DigestIgnoresFailures(rs: seq<AgentResponse>)
    ensures Digest(rs) == Digest(Successes(rs))
    decreases |rs|
  {
    if rs != [] {
      var init := rs[..|rs| - 1];
      var last := rs[|rs| - 1];
      DigestIgnoresFailures(init);
      var s := Successes(init);
      if last.success {
        assert Successes(rs) == s + [last];
        assert (s + [last])[..|s|] == s;
      } else {
        assert Successes(rs) == s;
      }
    }
  }

  /** Each block quotes at most the first 500 characters of the reasoning. */
  lemma DigestEntryExcerpt(r: AgentResponse)
    ensures var ex := SliceTo(r.reasoning, ExcerptLength);
      && |ex| <= ExcerptLength
      && ex == r.reasoning[..|ex|]
      && (|r.reasoning| <= ExcerptLength ==> ex == r.reasoning)
  {
  }

  /** The digest is never empty, so the consensus prompt always carries the heading
      and the digest as context. */
  lemma ConsensusPromptCarriesDigest(persona: string, rs: seq<AgentResponse>)
    ensures BuildPrompt(persona, Digest(rs)) == persona + ContextHeading + Digest(rs)
  {
  }

  /**
   * `ChemistryAgent`: the profile fixed by the constructor and the key index that
   * `get_next_key` advances. `ConsensusAgent` is the same class with its own name and
   * persona; its `synthesize` is `Synthesize` here.
   */
  class ChemistryAgent {
    const profile: AgentProfile
    var currentKeyIndex: nat

    ghost predicate Valid()
      reads this
    {
      IndexFits(currentKeyIndex, |profile.apiKeys|)
    }

    /** `ChemistryAgent(name, persona, api_keys, config)`, with `config or AgentConfig()`. */
    constructor (name: string, persona: string, apiKeys: seq<string>, config: Option<AgentConfig>)
      ensures Valid()
      ensures profile == AgentProfile(name, persona, apiKeys, config.GetOr(DefaultConfig))
      ensures currentKeyIndex == 0
    {
      profile := AgentProfile(name, persona, apiKeys, config.GetOr(DefaultConfig));
      currentKeyIndex := 0;
    }

    /** `get_next_key`: the key at the index, then the index moves on by one modulo
        the number of keys; with no keys, the `ValueError` and no change. */
    method GetNextKey() returns (key: Result<string, string>)
      requires Valid()
      modifies this`currentKeyIndex
      ensures Valid()
      ensures |profile.apiKeys| == 0 ==>
        key == Err(NoKeysError) && currentKeyIndex == old(currentKeyIndex)
      ensures |profile.apiKeys| > 0 ==>
        key == Ok(profile.apiKeys[old(currentKeyIndex)])
        && currentKeyIndex == KeyRotation.Advance(old(currentKeyIndex), |profile.apiKeys|)
    {
      if |profile.apiKeys| == 0 {
        return Err(NoKeysError);
      }
      key := Ok(profile.apiKeys[currentKeyIndex]);
      currentKeyIndex := KeyRotation.Advance(currentKeyIndex, |profile.apiKeys|);
    }

    /** `analyze(image, context)`: the retry loop. Returns the response and the sleeps
        taken between attempts; the key index ends where `Run` says. */
    method Analyze(image: PreparedImage, context: string, service: Request -> CallResult)
      returns (response: AgentResponse, delays: seq<real>)
      requires Valid()
      modifies this`currentKeyIndex
      ensures Valid()
      ensures var run := Run(profile, image, context, service, old(currentKeyIndex));
        response == run.response && delays == run.delays && currentKeyIndex == run.keyIndex
    {
      ghost var start := currentKeyIndex;
      delays := [];
      var attempt: nat := 0;
      while attempt < profile.config.maxRetries
        invariant Valid()
        invariant attempt == 0 || attempt < profile.config.maxRetries
        invariant Run(profile, image, context, service, start)
               == RunFrom(profile, image, context, service, attempt, currentKeyIndex, delays)
        decreases profile.config.maxRetries - attempt
      {
        ghost var before := currentKeyIndex;
        var outcome: CallResult;
        match image {
          case PreparationFailed(reason) =>
            outcome := CallFailed(reason);
          case Prepared(b64) =>
            var prompt := BuildPrompt(profile.persona, context);
            var key := GetNextKey();
            match key {
              case Err(e) =>
                outcome := CallFailed(e);
              case Ok(k) =>
                outcome := service(Request(RequestUrl(profile.config, k), prompt, b64,
                                           profile.config.temperature, profile.config.maxOutputTokens,
                                           profile.config.timeoutSeconds, attempt));
            }
        }
        assert (outcome, currentKeyIndex) == Attempt(profile, image, context, service, attempt, before);
        if outcome.Reply? {
          var answer, confidence := ResponseExtractor.ParseResponse(outcome.text);
          response := AgentResponse(profile.name, answer, confidence, outcome.text, true, None);
          return;
        }
        if attempt < profile.config.maxRetries - 1 {
          delays := delays + [Backoff(profile.config.retryDelay, attempt)];
        } else {
          response := Failure(profile.name, outcome.description);
          return;
        }
        attempt := attempt + 1;
      }
      response := Failure(profile.name, MaxRetriesError);
    }

    /** The summary loop of `synthesize`. */
    method BuildDigest(results: seq<AgentResponse>) returns (summary: string)
      ensures summary == Digest(results)
    {
      summary := DigestHeader;
      var i := 0;
      while i < |results|
        invariant 0 <= i <= |results|
        invariant summary == Digest(results[..i])
      {
        assert results[..i + 1][..i] == results[..i];
        if results[i].success {
          summary := summary + DigestEntry(results[i]);
        }
        i := i + 1;
      }
      assert results[..|results|] == results;
    }

    /** `synthesize(results, image)`: `analyze` with the digest of the successful
        results as context. */
    method Synthesize(results: seq<AgentResponse>, image: PreparedImage, service: Request -> CallResult)
      returns (response: AgentResponse, delays: seq<real>)
      requires Valid()
      modifies this`currentKeyIndex
      ensures Valid()
      ensures var run := Run(profile, image, Digest(results), service, old(currentKeyIndex));
        response == run.response && delays == run.delays && currentKeyIndex == run.keyIndex
    {
      var summary := BuildDigest(results);
      response, delays := Analyze(image, summary, service);
    }
  }
}
