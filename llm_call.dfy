/** `call_litellm_acompletion`: the system prompt is put in front of the
    messages, the request parameters are assembled and filtered, and up to
    `max_retries + 1` attempts are made. A network error or an application
    error (a tool-call tag in the stream, or an empty response) is retried;
    an application error also appends a nudge to the messages. Token usage
    is accounted in the run's statistics. The LLM service is a parameter:
    for each attempt number and request it says what the attempt yields. */
module LlmCall {
  import opened Outcomes
  import opened PyText
  import opened Json
  import opened Seqs
  import Sorting
  import opened LlmStream

  type Params = seq<(string, Json)>

  // ---------------------------------------------------------------------------
  // The system prompt
  // ---------------------------------------------------------------------------

  /** `{"role": "system", "content": prompt}`. */
  function SystemMessage(prompt: string): Json
  {
    Message("system", prompt)
  }

  /** A message dictionary whose role is `"system"`. */
  predicate IsSystem(m: Json)
  {
    m.JObj? && Lookup(m.entries, "role") == Some(JStr("system"))
  }

  /** The message list with the system prompt in front. With a non-empty
      prompt, a leading system message gets the prompt as its content and
      keeps everything else; otherwise a system message carrying the prompt
      is inserted before the messages. A first message that is not a
      dictionary has no `.get` and raises. */
  function WithSystemPrompt(messages: seq<Json>, prompt: Option<string>): (r: Outcome<seq<Json>>)
    ensures !Given(prompt) ==> r == Ok(messages)
    ensures Given(prompt) ==> (r.Raised? <==> messages != [] && !messages[0].JObj?)
    ensures r.Ok? && Given(prompt) ==>
              && r.value != [] && IsSystem(r.value[0])
              && Lookup(r.value[0].entries, "content") == Some(JStr(prompt.value))
    ensures r.Ok? && Given(prompt) && messages != [] && IsSystem(messages[0]) ==>
              && |r.value| == |messages| && r.value[1..] == messages[1..]
              && forall k :: k != "content" ==> Lookup(r.value[0].entries, k) == Lookup(messages[0].entries, k)
    ensures r.Ok? && Given(prompt) && !(messages != [] && IsSystem(messages[0])) ==>
              r.value == [SystemMessage(prompt.value)] + messages
  {
    if !Given(prompt) then Ok(messages)
    else if messages != [] && !messages[0].JObj? then Raised
    else if messages != [] && IsSystem(messages[0]) then
      var head := JObj(Put(messages[0].entries, "content", JStr(prompt.value)));
      Ok([head] + messages[1..])
    else
      Ok([SystemMessage(prompt.value)] + messages)
  }

  // ---------------------------------------------------------------------------
  // Request parameters
  // ---------------------------------------------------------------------------

  /** Keys that are never sent to the LLM service. */
  const FilteredKeys: seq<string> := ["stream_id", "parent_agent_id", "wait_seconds_on_retry", "max_retries"]

  /** `{**llm_config, "messages": final_messages, "stream": True, **kwargs}`. */
  function Spread(config: Params, messages: seq<Json>, kwargs: Params): Params
  {
    PutAll(Put(Put(PutAll([], config), "messages", JArr(messages)), "stream", JBool(true)), kwargs)
  }

  /** The spread parameters: a keyword argument wins over everything, then
      the forced `stream` and `messages`, then the configuration. */
  lemma SpreadLookup(config: Params, messages: seq<Json>, kwargs: Params, k: string)
    requires Sorting.UniqueKeys(config) && Sorting.UniqueKeys(kwargs)
    ensures Lookup(Spread(config, messages, kwargs), k) ==
              if Lookup(kwargs, k).Some? then Lookup(kwargs, k)
              else if k == "stream" then Some(JBool(true))
              else if k == "messages" then Some(JArr(messages))
              else Lookup(config, k)
  {
    var spread := Put(Put(PutAll([], config), "messages", JArr(messages)), "stream", JBool(true));
    PutAllLookup([], config, k);
    PutAllLookup(spread, kwargs, k);
  }

  /** The tools, and the tool choice alongside them, when given. */
  function WithTools(base: Params, tools: Json, toolChoice: Json): (r: Params)
    ensures Truthy(tools) ==> Lookup(r, "tools") == Some(tools)
    ensures Truthy(tools) && Truthy(toolChoice) ==> Lookup(r, "tool_choice") == Some(toolChoice)
    ensures !Truthy(tools) ==> r == base
    ensures forall k :: k != "tools" && k != "tool_choice" ==> Lookup(r, k) == Lookup(base, k)
  {
    if !Truthy(tools) then base
    else
      var withTools := Put(base, "tools", tools);
      if Truthy(toolChoice) then Put(withTools, "tool_choice", toolChoice) else withTools
  }

  /** `base.setdefault("stream_options", {})["include_usage"] = True`: a
      stream-options value that is not a dictionary (`None` included)
      cannot be assigned into and raises. */
  function WithUsage(base: Params): (r: Outcome<Params>)
    ensures r.Raised? <==> Lookup(base, "stream_options").Some? && !Lookup(base, "stream_options").value.JObj?
    ensures r.Ok? ==> && Lookup(r.value, "stream_options").Some? && Lookup(r.value, "stream_options").value.JObj?
                      && Lookup(Lookup(r.value, "stream_options").value.entries, "include_usage") == Some(JBool(true))
    ensures r.Ok? ==> forall k :: k != "stream_options" ==> Lookup(r.value, k) == Lookup(base, k)
  {
    match Lookup(base, "stream_options")
    case None => Ok(Put(base, "stream_options", JObj(Put([], "include_usage", JBool(true)))))
    case Some(JObj(es)) => Ok(Put(base, "stream_options", JObj(Put(es, "include_usage", JBool(true)))))
    case Some(_) => Raised
  }

  /** `{k: v for k, v in params.items() if v is not None}`, one entry at a
      time. */
  function NotNone(e: (string, Json)): Option<(string, Json)>
  {
    if e.1 != JNull then Some(e) else None
  }

  /** `{k: v for k, v in params.items() if k not in FILTERED_KEYS}`, one
      entry at a time. */
  function NotFiltered(e: (string, Json)): Option<(string, Json)>
  {
    if e.0 !in FilteredKeys then Some(e) else None
  }

  /** The parameters sent: the `None` values dropped, then the filtered
      keys. */
  function Sent(base: Params): Params
  {
    FilterMap(FilterMap(base, NotNone), NotFiltered)
  }

  /** An entry is sent exactly when it is in the parameters, its value is
      not `None` and its key is not a filtered one; nothing is added. */
  lemma SentEntries(base: Params, e: (string, Json))
    ensures e in Sent(base) <==> e in base && e.1 != JNull && e.0 !in FilteredKeys
  {
    var nonNull := FilterMap(base, NotNone);
    FilterMapMembers(nonNull, NotFiltered, e);
    FilterMapMembers(base, NotNone, e);
    if e in base && e.1 != JNull && e.0 !in FilteredKeys {
      var i :| 0 <= i < |base| && base[i] == e;
      assert NotNone(base[i]) == Some(e);
      var j :| 0 <= j < |nonNull| && nonNull[j] == e;
      assert NotFiltered(nonNull[j]) == Some(e);
    }
    if e in Sent(base) {
      var j :| 0 <= j < |nonNull| && NotFiltered(nonNull[j]) == Some(e);
      assert nonNull[j] == e;
    }
  }

  /** No parameter sent is `None` or has a filtered key, and no more are
      sent than were assembled. */
  lemma SentIsClean(base: Params)
    ensures |Sent(base)| <= |base|
    ensures forall i :: 0 <= i < |Sent(base)| ==> Sent(base)[i].1 != JNull && Sent(base)[i].0 !in FilteredKeys
  {
    FilterMapLength(base, NotNone);
    FilterMapLength(FilterMap(base, NotNone), NotFiltered);
    forall i | 0 <= i < |Sent(base)|
      ensures Sent(base)[i].1 != JNull && Sent(base)[i].0 !in FilteredKeys
    {
      SentEntries(base, Sent(base)[i]);
    }
  }

  /** The parameters of one attempt, before filtering. */
  function Assembled(config: Params, messages: seq<Json>, kwargs: Params, tools: Json, toolChoice: Json, stream: bool): (r: Outcome<Params>)
  {
    var base := WithTools(Spread(config, messages, kwargs), tools, toolChoice);
    if stream then WithUsage(base) else Ok(base)
  }

  /** The parameters of a streamed attempt ask for usage in the stream. */
  lemma StreamAsksForUsage(config: Params, messages: seq<Json>, kwargs: Params, tools: Json, toolChoice: Json)
    requires Assembled(config, messages, kwargs, tools, toolChoice, true).Ok?
    ensures var base := Assembled(config, messages, kwargs, tools, toolChoice, true).value;
            exists es :: && ("stream_options", JObj(es)) in Sent(base)
                        && Lookup(es, "include_usage") == Some(JBool(true))
  {
    UsageIsSent(WithTools(Spread(config, messages, kwargs), tools, toolChoice));
  }

  /** Once usage is asked for, the stream options survive the filtering. */
  lemma UsageIsSent(base: Params)
    requires WithUsage(base).Ok?
    ensures exists es :: && ("stream_options", JObj(es)) in Sent(WithUsage(base).value)
                         && Lookup(es, "include_usage") == Some(JBool(true))
  {
    var asked := WithUsage(base).value;
    var opts := Lookup(asked, "stream_options").value;
    assert "stream_options" !in FilteredKeys;
    SentEntries(asked, ("stream_options", opts));
    assert ("stream_options", JObj(opts.entries)) in Sent(asked);
  }

  // ---------------------------------------------------------------------------
  // Token usage statistics
  // ---------------------------------------------------------------------------

  /** `run_context['runtime']['token_usage_stats']`. */
  datatype Stats = Stats(prompt: int, completion: int, successful: int, failed: int, maxContextWindow: int)

  /** The statistics after a successful call: with a non-empty usage
      report, its prompt and completion tokens (0 when missing) are added
      to the totals, one more call succeeded, and the largest context seen
      grows to this call's total if that is larger. Without one, nothing
      changes. */
  function AfterSuccess(s: Stats, usage: Option<map<string, int>>): (r: Stats)
    ensures r.failed == s.failed
    ensures usage.None? || usage.value == map[] ==> r == s
    ensures usage.Some? && usage.value != map[] ==>
              var p := if "prompt_tokens" in usage.value then usage.value["prompt_tokens"] else 0;
              var c := if "completion_tokens" in usage.value then usage.value["completion_tokens"] else 0;
              && r.prompt == s.prompt + p && r.completion == s.completion + c
              && r.successful == s.successful + 1
              && r.maxContextWindow >= s.maxContextWindow && r.maxContextWindow >= p + c
              && (r.maxContextWindow == s.maxContextWindow || r.maxContextWindow == p + c)
  {
    if usage.None? || usage.value == map[] then s
    else
      var p := if "prompt_tokens" in usage.value then usage.value["prompt_tokens"] else 0;
      var c := if "completion_tokens" in usage.value then usage.value["completion_tokens"] else 0;
      Stats(s.prompt + p, s.completion + c, s.successful + 1, s.failed,
            if p + c > s.maxContextWindow then p + c else s.maxContextWindow)
  }

  /** The statistics counters, updated in place. */
  class TokenUsageStats {
    var totalPromptTokens: int
    var totalCompletionTokens: int
    var totalSuccessfulCalls: int
    var totalFailedCalls: int
    var maxContextWindow: int

    function Totals(): Stats
      reads this
    {
      Stats(totalPromptTokens, totalCompletionTokens, totalSuccessfulCalls, totalFailedCalls, maxContextWindow)
    }

    constructor()
      ensures Totals() == Stats(0, 0, 0, 0, 0)
    {
      totalPromptTokens := 0;
      totalCompletionTokens := 0;
      totalSuccessfulCalls := 0;
      totalFailedCalls := 0;
      maxContextWindow := 0;
    }

    /** The accounting of a successful call. */
    method RecordSuccess(usage: Option<map<string, int>>)
      modifies this
      ensures Totals() == AfterSuccess(old(Totals()), usage)
    {
      if usage.Some? && usage.value != map[] {
        var p := if "prompt_tokens" in usage.value then usage.value["prompt_tokens"] else 0;
        var c := if "completion_tokens" in usage.value then usage.value["completion_tokens"] else 0;
        totalPromptTokens := totalPromptTokens + p;
        totalCompletionTokens := totalCompletionTokens + c;
        totalSuccessfulCalls := totalSuccessfulCalls + 1;
        var total := p + c;
        if total > maxContextWindow {
          maxContextWindow := total;
        }
      }
    }

    /** The accounting of a retryable failure. */
    method RecordFailure()
      modifies this
      ensures Totals() == old(Totals()).(failed := old(Totals()).failed + 1)
    {
      totalFailedCalls := totalFailedCalls + 1;
    }
  }

  // ---------------------------------------------------------------------------
  // Attempts
  // ---------------------------------------------------------------------------

  /** What the LLM service does with one request: it streams chunks, fails
      with a network error (retryable), fails with an authentication, bad
      request or context-window error (unrecoverable), or fails otherwise. */
  datatype Attempt = Streamed(chunks: seq<Chunk>) | NetworkError | Unrecoverable | Unexpected

  /** How a call that returned an error dictionary ended. */
  datatype ErrorKind = UnrecoverableError | UnexpectedError | RetriesExhausted(appError: bool)

  /** The dictionary the call returns: the aggregated response, or an
      error. */
  datatype CallResult = Answered(response: Response, attempt: nat) | Failed(kind: ErrorKind)

  /** The inputs of a call; `respond` is the LLM service and `repair` the
      JSON repair of tool-call arguments. */
  datatype Call = Call(messages: seq<Json>, config: Params, prompt: Option<string>, tools: Json, toolChoice: Json,
                       kwargs: Params, stream: bool, respond: (nat, Params) -> Attempt,
                       repair: string -> Outcome<string>)

  /** `llm_config.get("max_retries", 2)`, as `range(max_retries + 1)` reads
      it: a boolean counts as 0 or 1, anything else but an integer raises. */
  function MaxRetries(config: Params): (r: Outcome<int>)
    ensures Lookup(config, "max_retries").None? ==> r == Ok(2)
    ensures r.Raised? <==> Lookup(config, "max_retries").Some? && !Lookup(config, "max_retries").value.JInt? && !Lookup(config, "max_retries").value.JBool?
  {
    match Field(config, "max_retries", JInt(2))
    case JInt(i) => Ok(i)
    case JBool(b) => Ok(if b then 1 else 0)
    case _ => Raised
  }

  /** A response with no content but whitespace and no tool calls. */
  predicate EmptyResponse(r: Response)
  {
    Strip(r.content) == [] && r.toolCalls == []
  }

  /** How one attempt ends: the call is over, or a failure is retried
      (`appError` tells an application error from a network one). */
  datatype AttemptEnd = Finished(result: CallResult) | Retry(appError: bool)

  /** One attempt: a missing model name, or parameters that cannot be
      assembled, end the call with an unexpected error before anything is
      sent; otherwise the request is sent and the service's answer is
      aggregated from a fresh aggregator. */
  function AttemptOnce(c: Call, attempt: nat, final: seq<Json>): (r: (Option<Params>, AttemptEnd))
    ensures r.0.None? ==> r.1 == Finished(Failed(UnexpectedError))
    ensures r.0.Some? ==> Clean(r.0.value)
    ensures r.1.Finished? && r.1.result.Answered? ==> r.0.Some? && !EmptyResponse(r.1.result.response)
    ensures r.1.Finished? && r.1.result.Failed? ==> !r.1.result.kind.RetriesExhausted?
  {
    if !Truthy(Field(c.config, "model", JNull)) then (None, Finished(Failed(UnexpectedError)))
    else
      match Assembled(c.config, final, c.kwargs, c.tools, c.toolChoice, c.stream)
      case Raised => (None, Finished(Failed(UnexpectedError)))
      case Ok(base) =>
        var ps := Sent(base);
        SentIsClean(base);
        (Some(ps), AnswerEnd(c, attempt, ps))
  }

  /** How the service's answer to a sent request ends the attempt: a
      network error is retried, an unrecoverable or unexpected error ends
      the call, and a stream is aggregated. */
  function AnswerEnd(c: Call, attempt: nat, ps: Params): (r: AttemptEnd)
    ensures r.Finished? && r.result.Answered? ==> c.respond(attempt, ps).Streamed? && !EmptyResponse(r.result.response)
    ensures r.Finished? && r.result.Failed? ==> !r.result.kind.RetriesExhausted?
    ensures r == Retry(false) <==> c.respond(attempt, ps).NetworkError?
  {
    match c.respond(attempt, ps)
    case Streamed(chunks) => StreamedEnd(chunks, c.repair, attempt)
    case NetworkError => Retry(false)
    case Unrecoverable => Finished(Failed(UnrecoverableError))
    case Unexpected => Finished(Failed(UnexpectedError))
  }

  /** A streamed answer: a tool-call tag in the content or an empty
      response asks for a retry; anything else answers the call. */
  function StreamedEnd(chunks: seq<Chunk>, repair: string -> Outcome<string>, attempt: nat): (r: AttemptEnd)
    ensures r.Finished? ==> r.result.Answered? && r.result.attempt == attempt && !EmptyResponse(r.result.response)
    ensures r.Retry? ==> r.appError
    ensures Consume(Fresh, chunks).1 ==> r == Retry(true)
    ensures !Consume(Fresh, chunks).1 ==>
              (ConsumeOrdered(Fresh, chunks);
               var response := Aggregated(Consume(Fresh, chunks).0, repair);
               (r.Retry? <==> EmptyResponse(response)) && (r.Finished? ==> r.result.response == response))
  {
    var consumed := Consume(Fresh, chunks);
    if consumed.1 then Retry(true)
    else
      ConsumeOrdered(Fresh, chunks);
      var response := Aggregated(consumed.0, repair);
      if EmptyResponse(response) then Retry(true)
      else Finished(Answered(response, attempt))
  }

  /** `{"role": role, "content": content}`. */
  function Message(role: string, content: string): (r: Json)
    ensures r.JObj? && Lookup(r.entries, "role") == Some(JStr(role)) && Lookup(r.entries, "content") == Some(JStr(content))
  {
    var es := [("role", JStr(role)), ("content", JStr(content))];
    assert es[0].0 != "content";
    assert FindKey(es, "content") == Some(1);
    JObj(es)
  }

  /** `messages[-1].get("content", "")` as the first nudge reads it. The
      caller's list is copied but its dictionaries are shared, so when the
      system prompt replaced the content of a single system message, the
      last message seen here carries the prompt; that is, it is the last
      message of the list with the prompt in place. An empty message list,
      a last message that is not a dictionary, or a content that is not a
      string raises. */
  function LastRequest(messages: seq<Json>, prompted: seq<Json>): (r: Outcome<string>)
    ensures messages == [] ==> r.Raised?
    ensures messages != [] && prompted != [] ==>
              var last := prompted[|prompted| - 1];
              && (!last.JObj? ==> r.Raised?)
              && (last.JObj? ==> (r.Ok? <==> Field(last.entries, "content", JStr("")).JStr?))
              && (last.JObj? && Lookup(last.entries, "content").None? ==> r == Ok(""))
              && (r.Ok? ==> Lookup(last.entries, "content") == Some(JStr(r.value)) || (Lookup(last.entries, "content").None? && r.value == ""))
  {
    if messages == [] || prompted == [] then Raised
    else
      var last := prompted[|prompted| - 1];
      if !last.JObj? then Raised
      else
        match Field(last.entries, "content", JStr(""))
        case JStr(s) => Ok(s)
        case _ => Raised
  }

  /** The message the first nudge reads is the caller's last message,
      except when the caller sent a single system message and a prompt was
      given: that message then carries the prompt, and the request is the
      prompt. */
  lemma LastRequestOfPrompted(messages: seq<Json>, prompt: Option<string>)
    requires messages != [] && WithSystemPrompt(messages, prompt).Ok?
    ensures var prompted := WithSystemPrompt(messages, prompt).value;
            && prompted != []
            && (|messages| > 1 || !Given(prompt) || !IsSystem(messages[0]) ==>
                  prompted[|prompted| - 1] == messages[|messages| - 1])
            && (|messages| == 1 && Given(prompt) && IsSystem(messages[0]) ==>
                  LastRequest(messages, prompted) == Ok(prompt.value))
  {
    var prompted := WithSystemPrompt(messages, prompt).value;
    if |messages| > 1 && Given(prompt) && IsSystem(messages[0]) {
      assert prompted[1..] == messages[1..];
      assert prompted[|prompted| - 1] == prompted[1..][|prompted| - 2];
    }
  }

  /** The messages appended after an application error of an attempt that
      is not the last: an empty assistant turn and a user nudge repeating
      the request after the first, a user nudge after the second, and an
      assistant note after any later one. */
  function Nudged(final: seq<Json>, attempt: nat, request: Outcome<string>): (r: Outcome<seq<Json>>)
    ensures r.Raised? <==> attempt == 0 && request.Raised?
    ensures r.Ok? ==> |r.value| == |final| + (if attempt == 0 then 2 else 1) && r.value[..|final|] == final
  {
    if attempt == 0 then
      var text :- request;
      Ok(final + [Message("assistant", ""), Message("user", Note(attempt) + text)])
    else if attempt == 1 then Ok(final + [Message("user", Note(attempt))])
    else Ok(final + [Message("assistant", Note(attempt))])
  }

  /** The text of the nudge after failed attempt `attempt`: the first asks
      to go on with the request (which follows it), the second asks for a
      tool call or some answer, and any later one is the agent's own note
      that it is giving up. */
  function Note(attempt: nat): string
  {
    if attempt == 0 then
      "You just made an " + "empty response, " + "which is not " + "acceptable. "
      + "Let's try again. " + "DO NOT " + "apologize, just " + "continue from "
      + "where you left " + "off and proceed " + "with my request. "
      + "My request is: "
    else if attempt == 1 then
      "You must ensure " + "that you make a " + "tool call or " + "just say sth, "
      + "regardless of " + "the situation. " + "Not making any " + "reponse is not "
      + "an option. If " + "you are unsure, " + "please ask the " + "user for more "
      + "information or " + "clarification. "
    else
      "It appears that " + "I am unable to " + "make further " + "progress. For "
      + "this final " + "attempt, I will " + "just say sth, or " + "call a tool to "
      + "conclude this " + "flow. [To " + "Principal: If " + "you see this "
      + "message, please " + "review my " + "reasoning and " + "content to "
      + "assess my " + "progress. If " + "there has been " + "no meaningful "
      + "advancement, " + "consider " + "restarting this " + "workflow with "
      + "revised " + "requirements.]"
  }

  /** What a nudge appends: an empty assistant turn and the first note
      with the request, as the user, after the first failure; the second
      note, as the user, after the second; the final note, as the
      assistant, after any later one. */
  lemma NudgeMessages(final: seq<Json>, attempt: nat, request: Outcome<string>)
    requires Nudged(final, attempt, request).Ok?
    ensures var next := Nudged(final, attempt, request).value;
            && (attempt == 0 ==> next[|final|] == Message("assistant", "") && next[|final| + 1] == Message("user", Note(attempt) + request.value))
            && (attempt == 1 ==> next[|final|] == Message("user", Note(attempt)))
            && (attempt >= 2 ==> next[|final|] == Message("assistant", Note(attempt)))
  {
  }






  /** The record of a call: its result (`Raised` when an exception
      escapes), the requests sent in order, and the retryable failures. */
  datatype Run = Run(result: Outcome<CallResult>, sent: seq<Params>, failures: nat)

  /** How attempt `n` with messages `f` ends, and the request it sent. */
  type Steps = (nat, seq<Json>) -> (Option<Params>, AttemptEnd)

  /** How the messages grow after an application error of an attempt. */
  type Nudges = (seq<Json>, nat, Outcome<string>) -> Outcome<seq<Json>>

  /** The attempts of a call. */
  function AttemptsOf(c: Call): Steps
  {
    (n: nat, f: seq<Json>) => AttemptOnce(c, n, f)
  }

  /** The attempt loop from attempt `attempt` on, with the messages
      `final`, the requests already sent and the failures counted so far.
      The loop runs out only when it never starts (a negative retry limit),
      which raises. */
  function RunFrom(step: Steps, nudge: Nudges, maxRetries: int, request: Outcome<string>, attempt: nat, final: seq<Json>,
                   sent: seq<Params>, failures: nat): (r: Run)
    decreases maxRetries + 1 - attempt
  {
    if attempt > maxRetries then Run(Raised, sent, failures)
    else
      var once := step(attempt, final);
      var sent' := if once.0.Some? then sent + [once.0.value] else sent;
      match once.1
      case Finished(result) => Run(Ok(result), sent', failures)
      case Retry(appError) =>
        if attempt >= maxRetries then Run(Ok(Failed(RetriesExhausted(appError))), sent', failures + 1)
        else if appError then
          match nudge(final, attempt, request)
          case Raised => Run(Raised, sent', failures + 1)
          case Ok(next) => RunFrom(step, nudge, maxRetries, request, attempt + 1, next, sent', failures + 1)
        else RunFrom(step, nudge, maxRetries, request, attempt + 1, final, sent', failures + 1)
  }

  /** A whole call: the retry limit and the system prompt are settled
      before the loop, and an exception there escapes. */
  function RunCall(c: Call): Run
  {
    match MaxRetries(c.config)
    case Raised => Run(Raised, [], 0)
    case Ok(maxRetries) =>
      match WithSystemPrompt(c.messages, c.prompt)
      case Raised => Run(Raised, [], 0)
      case Ok(prompted) => RunFrom(AttemptsOf(c), Nudged, maxRetries, LastRequest(c.messages, prompted), 0, prompted, [], 0)
  }

  /** The statistics after a run: one failure per retryable failure, and
      the success accounting when the call was answered. */
  function Accounted(s: Stats, run: Run): Stats
  {
    var failed := s.(failed := s.failed + run.failures);
    if run.result.Ok? && run.result.value.Answered? then AfterSuccess(failed, run.result.value.response.usage)
    else failed
  }

  // ---------------------------------------------------------------------------
  // What a call does
  // ---------------------------------------------------------------------------

  /** Attempts that send nothing end the call with an unexpected error,
      and no attempt reports exhausted retries itself. */
  ghost predicate SendsBeforeRetry(step: Steps)
  {
    forall n: nat, f: seq<Json> ::
      && (step(n, f).0.None? ==> step(n, f).1 == Finished(Failed(UnexpectedError)))
      && (step(n, f).1.Finished? && step(n, f).1.result.Failed? ==> !step(n, f).1.result.kind.RetriesExhausted?)
  }

  lemma AttemptsSendBeforeRetry(c: Call)
    ensures SendsBeforeRetry(AttemptsOf(c))
  {
    forall n: nat, f: seq<Json>
      ensures && (AttemptsOf(c)(n, f).0.None? ==> AttemptsOf(c)(n, f).1 == Finished(Failed(UnexpectedError)))
              && (AttemptsOf(c)(n, f).1.Finished? && AttemptsOf(c)(n, f).1.result.Failed? ==>
                    !AttemptsOf(c)(n, f).1.result.kind.RetriesExhausted?)
    {
      assert AttemptsOf(c)(n, f) == AttemptOnce(c, n, f);
    }
  }

  /** Counting from a loop state in which every earlier attempt sent a
      request and failed retryably: no more than `maxRetries + 1` requests
      are sent; an answered call follows one request per failure; a call
      whose retries ran out sent `maxRetries + 1` requests that all
      failed. */
  lemma {:induction false} RunFromCounts(step: Steps, nudge: Nudges, maxRetries: int, request: Outcome<string>, attempt: nat,
                                         final: seq<Json>, sent: seq<Params>, failures: nat)
    requires SendsBeforeRetry(step)
    requires |sent| == failures == attempt
    ensures var r := RunFrom(step, nudge, maxRetries, request, attempt, final, sent, failures);
            && |r.sent| <= (if maxRetries + 1 > attempt then maxRetries + 1 else attempt)
            && r.failures <= |r.sent|
            && (r.result.Ok? && r.result.value.Answered? ==> r.failures + 1 == |r.sent|)
            && (r.result.Ok? && r.result.value.Failed? && r.result.value.kind.RetriesExhausted? ==>
                  r.failures == |r.sent| == maxRetries + 1)
    decreases maxRetries + 1 - attempt
  {
    if attempt <= maxRetries {
      var once := step(attempt, final);
      assert once.0.None? ==> once.1 == Finished(Failed(UnexpectedError));
      assert once.1.Finished? && once.1.result.Failed? ==> !once.1.result.kind.RetriesExhausted?;
      var sent' := if once.0.Some? then sent + [once.0.value] else sent;
      if once.1.Retry? && attempt < maxRetries {
        if once.1.appError {
          match nudge(final, attempt, request)
          case Raised =>
          case Ok(next) => RunFromCounts(step, nudge, maxRetries, request, attempt + 1, next, sent', failures + 1);
        } else {
          RunFromCounts(step, nudge, maxRetries, request, attempt + 1, final, sent', failures + 1);
        }
      }
    }
  }

  /** At most `max_retries + 1` attempts are made, and none with a
      negative limit; an answered call was preceded by one retryable
      failure per earlier request; exhausted retries mean every attempt
      failed. */
  lemma RunCounts(c: Call)
    requires MaxRetries(c.config).Ok?
    ensures var r := RunCall(c);
            var m := MaxRetries(c.config).value;
            && |r.sent| <= (if m >= 0 then m + 1 else 0)
            && (r.result.Ok? && r.result.value.Answered? ==> r.failures + 1 == |r.sent|)
            && (r.result.Ok? && r.result.value.Failed? && r.result.value.kind.RetriesExhausted? ==> r.failures == |r.sent| == m + 1)
  {
    var m := MaxRetries(c.config).value;
    match WithSystemPrompt(c.messages, c.prompt)
    case Raised =>
    case Ok(prompted) =>
      AttemptsSendBeforeRetry(c);
      RunFromCounts(AttemptsOf(c), Nudged, m, LastRequest(c.messages, prompted), 0, prompted, [], 0);
  }

  /** Parameters with no `None` value and no filtered key. */
  predicate Clean(ps: Params)
  {
    forall j :: 0 <= j < |ps| ==> ps[j].1 != JNull && ps[j].0 !in FilteredKeys
  }

  /** Every request of a list is clean. */
  ghost predicate AllClean(sent: seq<Params>)
  {
    forall i :: 0 <= i < |sent| ==> Clean(sent[i])
  }

  /** Every request an attempt sends is clean. */
  ghost predicate SendsClean(step: Steps)
  {
    forall n: nat, f: seq<Json> :: step(n, f).0.Some? ==> Clean(step(n, f).0.value)
  }

  lemma AttemptsSendClean(c: Call)
    ensures SendsClean(AttemptsOf(c))
  {
    forall n: nat, f: seq<Json> | AttemptsOf(c)(n, f).0.Some?
      ensures Clean(AttemptsOf(c)(n, f).0.value)
    {
      assert AttemptsOf(c)(n, f) == AttemptOnce(c, n, f);
    }
  }

  /** Every request of the loop is clean. */
  lemma {:induction false} RunFromSendsClean(step: Steps, nudge: Nudges, maxRetries: int, request: Outcome<string>, attempt: nat,
                                             final: seq<Json>, sent: seq<Params>, failures: nat)
    requires SendsClean(step)
    requires AllClean(sent)
    ensures AllClean(RunFrom(step, nudge, maxRetries, request, attempt, final, sent, failures).sent)
    decreases maxRetries + 1 - attempt
  {
    if attempt <= maxRetries {
      var once := step(attempt, final);
      assert once.0.Some? ==> Clean(once.0.value);
      var sent': seq<Params> := if once.0.Some? then sent + [once.0.value] else sent;
      assert AllClean(sent');
      if once.1.Retry? && attempt < maxRetries {
        if once.1.appError {
          match nudge(final, attempt, request)
          case Raised =>
          case Ok(next) => RunFromSendsClean(step, nudge, maxRetries, request, attempt + 1, next, sent', failures + 1);
        } else {
          RunFromSendsClean(step, nudge, maxRetries, request, attempt + 1, final, sent', failures + 1);
        }
      }
    }
  }

  /** No request of a call carries a `None` value or a filtered key. */
  lemma RunSendsClean(c: Call)
    ensures forall i :: 0 <= i < |RunCall(c).sent| ==> Clean(RunCall(c).sent[i])
  {
    match MaxRetries(c.config)
    case Raised =>
    case Ok(m) =>
      match WithSystemPrompt(c.messages, c.prompt)
      case Raised =>
      case Ok(prompted) =>
        AttemptsSendClean(c);
        RunFromSendsClean(AttemptsOf(c), Nudged, m, LastRequest(c.messages, prompted), 0, prompted, [], 0);
  }

  /** Attempts answer only with a non-empty response. */
  ghost predicate AnswersNonEmpty(step: Steps)
  {
    forall n: nat, f: seq<Json> :: step(n, f).1.Finished? && step(n, f).1.result.Answered? ==> !EmptyResponse(step(n, f).1.result.response)
  }

  lemma AttemptsAnswerNonEmpty(c: Call)
    ensures AnswersNonEmpty(AttemptsOf(c))
  {
    forall n: nat, f: seq<Json> | AttemptsOf(c)(n, f).1.Finished? && AttemptsOf(c)(n, f).1.result.Answered?
      ensures !EmptyResponse(AttemptsOf(c)(n, f).1.result.response)
    {
      assert AttemptsOf(c)(n, f) == AttemptOnce(c, n, f);
    }
  }

  /** The loop answers only with a non-empty response. */
  lemma {:induction false} RunFromAnswersNonEmpty(step: Steps, nudge: Nudges, maxRetries: int, request: Outcome<string>, attempt: nat,
                                                  final: seq<Json>, sent: seq<Params>, failures: nat)
    requires AnswersNonEmpty(step)
    ensures var r := RunFrom(step, nudge, maxRetries, request, attempt, final, sent, failures);
            r.result.Ok? && r.result.value.Answered? ==> !EmptyResponse(r.result.value.response)
    decreases maxRetries + 1 - attempt
  {
    if attempt <= maxRetries {
      var once := step(attempt, final);
      var sent' := if once.0.Some? then sent + [once.0.value] else sent;
      if once.1.Retry? && attempt < maxRetries {
        if once.1.appError {
          match nudge(final, attempt, request)
          case Raised =>
          case Ok(next) => RunFromAnswersNonEmpty(step, nudge, maxRetries, request, attempt + 1, next, sent', failures + 1);
        } else {
          RunFromAnswersNonEmpty(step, nudge, maxRetries, request, attempt + 1, final, sent', failures + 1);
        }
      }
    }
  }

  /** An answered call never carries an empty response: an empty one is a
      retryable failure. */
  lemma RunAnswersNonEmpty(c: Call)
    ensures var r := RunCall(c);
            r.result.Ok? && r.result.value.Answered? ==> !EmptyResponse(r.result.value.response)
  {
    match MaxRetries(c.config)
    case Raised =>
    case Ok(m) =>
      match WithSystemPrompt(c.messages, c.prompt)
      case Raised =>
      case Ok(prompted) =>
        AttemptsAnswerNonEmpty(c);
        RunFromAnswersNonEmpty(AttemptsOf(c), Nudged, m, LastRequest(c.messages, prompted), 0, prompted, [], 0);
  }

  // ---------------------------------------------------------------------------
  // The call
  // ---------------------------------------------------------------------------

  /** `step` makes the attempts of call `c`. The equation is only
      instantiated where an attempt of `c` is spoken of, which keeps the
      attempt's definition out of the loop's proof. */
  ghost predicate Implements(c: Call, step: Steps)
  {
    forall n: nat, f: seq<Json> {:trigger AttemptOnce(c, n, f)} :: step(n, f) == AttemptOnce(c, n, f)
  }

  lemma AttemptsOfImplements(c: Call)
    ensures Implements(c, AttemptsOf(c))
  {
    forall n: nat, f: seq<Json>
      ensures AttemptsOf(c)(n, f) == AttemptOnce(c, n, f)
    {
    }
  }

  /** One attempt, run on a fresh aggregator object. */
  method RunAttempt(c: Call, attempt: nat, final: seq<Json>) returns (request: Option<Params>, end: AttemptEnd)
    ensures (request, end) == AttemptOnce(c, attempt, final)
  {
    if !Truthy(Field(c.config, "model", JNull)) {
      return None, Finished(Failed(UnexpectedError));
    }
    var assembled := Assembled(c.config, final, c.kwargs, c.tools, c.toolChoice, c.stream);
    if assembled.Raised? {
      return None, Finished(Failed(UnexpectedError));
    }
    var ps := Sent(assembled.value);
    request := Some(ps);
    end := AwaitAnswer(c, attempt, ps);
  }

  /** The service's answer to a sent request. */
  method AwaitAnswer(c: Call, attempt: nat, ps: Params) returns (end: AttemptEnd)
    ensures end == AnswerEnd(c, attempt, ps)
  {
    match c.respond(attempt, ps)
    case Streamed(chunks) => {
      end := ConsumeAttempt(chunks, c.repair, attempt);
    }
    case NetworkError => end := Retry(false);
    case Unrecoverable => end := Finished(Failed(UnrecoverableError));
    case Unexpected => end := Finished(Failed(UnexpectedError));
  }

  /** The streamed part of an attempt, on a fresh aggregator object. */
  method ConsumeAttempt(chunks: seq<Chunk>, repair: string -> Outcome<string>, attempt: nat) returns (end: AttemptEnd)
    ensures end == StreamedEnd(chunks, repair, attempt)
  {
    var aggregator := new ResponseAggregator(None, None, None);
    var raised := aggregator.ConsumeStream(chunks);
    if raised {
      return Retry(true);
    }
    ConsumeOrdered(Fresh, chunks);
    var response := aggregator.AggregatedResponse(repair);
    if Strip(response.content) == [] && response.toolCalls == [] {
      return Retry(true);
    }
    end := Finished(Answered(response, attempt));
  }

  /** `nudge` grows the messages as a call does; like `Implements`, the
      equation is only instantiated where a call's nudge is spoken of. */
  ghost predicate NudgesAs(nudge: Nudges)
  {
    forall f: seq<Json>, a: nat, r: Outcome<string> {:trigger Nudged(f, a, r)} :: nudge(f, a, r) == Nudged(f, a, r)
  }

  /** The nudge of the loop, seen through the nudges it makes. */
  method NextMessages(ghost nudge: Nudges, final: seq<Json>, attempt: nat, request: Outcome<string>) returns (next: Outcome<seq<Json>>)
    requires NudgesAs(nudge)
    ensures next == nudge(final, attempt, request)
  {
    next := Nudged(final, attempt, request);
  }

  /** An attempt of the loop, seen through the attempts it makes. */
  method NextAttempt(c: Call, ghost step: Steps, attempt: nat, final: seq<Json>) returns (request: Option<Params>, end: AttemptEnd)
    requires Implements(c, step)
    ensures (request, end) == step(attempt, final)
  {
    request, end := RunAttempt(c, attempt, final);
  }

  /** The accounting of one more retryable failure. */
  method CountFailure(stats: TokenUsageStats?, ghost before: Stats, ghost failures: nat)
    requires stats != null ==> stats.Totals() == before.(failed := before.failed + failures)
    modifies stats
    ensures stats != null ==> stats.Totals() == before.(failed := before.failed + failures + 1)
  {
    if stats != null {
      stats.RecordFailure();
    }
  }

  /** The success accounting of a call that finished, when it was
      answered. */
  method Settle(stats: TokenUsageStats?, ghost before: Stats, r: CallResult, ghost sent: seq<Params>, ghost failures: nat)
    requires stats != null ==> stats.Totals() == before.(failed := before.failed + failures)
    modifies stats
    ensures stats != null ==> stats.Totals() == Accounted(before, Run(Ok(r), sent, failures))
  {
    if r.Answered? && stats != null {
      stats.RecordSuccess(r.response.usage);
    }
  }

  /** `for attempt in range(max_retries + 1)`: the attempts, retries and
      nudges, with the statistics counted as they happen. */
  method AttemptLoop(c: Call, ghost step: Steps, ghost nudge: Nudges, stats: TokenUsageStats?, m: int, request: Outcome<string>,
                     prompted: seq<Json>) returns (result: Outcome<CallResult>, sent: seq<Params>)
    requires Implements(c, step) && NudgesAs(nudge)
    modifies stats
    ensures var run := RunFrom(step, nudge, m, request, 0, prompted, [], 0);
            && result == run.result && sent == run.sent
            && (stats != null ==> stats.Totals() == Accounted(old(stats.Totals()), run))
  {
    ghost var before := if stats != null then stats.Totals() else Stats(0, 0, 0, 0, 0);
    ghost var run := RunFrom(step, nudge, m, request, 0, prompted, [], 0);
    var final := prompted;
    var failures: nat := 0;
    sent := [];
    var attempt: nat := 0;
    while attempt <= m
      invariant run == RunFrom(step, nudge, m, request, attempt, final, sent, failures)
      invariant stats != null ==> before == old(stats.Totals()) && stats.Totals() == before.(failed := before.failed + failures)
      decreases m + 1 - attempt
    {
      var once, end := NextAttempt(c, step, attempt, final);
      if once.Some? {
        sent := sent + [once.value];
      }
      match end
      case Finished(r) => {
        Settle(stats, before, r, sent, failures);
        return Ok(r), sent;
      }
      case Retry(appError) => {
        CountFailure(stats, before, failures);
        failures := failures + 1;
        if attempt >= m {
          return Ok(Failed(RetriesExhausted(appError))), sent;
        }
        if appError {
          var next := NextMessages(nudge, final, attempt, request);
          if next.Raised? {
            return Raised, sent;
          }
          final := next.value;
        }
        attempt := attempt + 1;
      }
    }
    result := Raised;
  }

  /** `call_litellm_acompletion`, with the statistics of the run context
      when there is one. */
  method CallLlm(c: Call, stats: TokenUsageStats?) returns (result: Outcome<CallResult>, sent: seq<Params>)
    modifies stats
    ensures result == RunCall(c).result && sent == RunCall(c).sent
    ensures stats != null ==> stats.Totals() == Accounted(old(stats.Totals()), RunCall(c))
  {
    var maxRetries := MaxRetries(c.config);
    if maxRetries.Raised? {
      return Raised, [];
    }
    var prompted := WithSystemPrompt(c.messages, c.prompt);
    if prompted.Raised? {
      return Raised, [];
    }
    var request := LastRequest(c.messages, prompted.value);
    AttemptsOfImplements(c);
    assert NudgesAs(Nudged);
    result, sent := AttemptLoop(c, AttemptsOf(c), Nudged, stats, maxRetries.value, request, prompted.value);
  }
}
