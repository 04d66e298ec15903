/** The summary of the principal's message history that is injected into the
    partner's prompt (`principal_history_summary_ingestor`): the last few
    messages, each on its own entry with its role, clipped content and tool
    calls, inside `principal_activity_log` tags. */
module History {
  import opened Outcomes
  import opened PyText
  import opened Json
  import opened Seqs

  const LogOpen := "<principal_activity_log>"
  const LogClose := "\n</principal_activity_log>"
  const NoActivityLog := LogOpen + "\nPrincipal has no " + "recorded activity yet." + LogClose
  const ContentLimit := 200
  const ArgumentsLimit := 70

  /** `params.get("max_messages", 10)` as the integer that the slice and the
      comparison use: a boolean counts as 0 or 1, and anything else cannot
      be negated or compared with a length and raises. */
  function MaxMessages(params: seq<(string, Json)>): (r: Outcome<int>)
    ensures Lookup(params, "max_messages").None? ==> r == Ok(10)
    ensures r.Ok? <==> Field(params, "max_messages", JInt(10)).JInt? || Field(params, "max_messages", JInt(10)).JBool?
  {
    match Field(params, "max_messages", JInt(10))
    case JInt(i) => Ok(i)
    case JBool(b) => Ok(if b then 1 else 0)
    case _ => Raised
  }

  /** Where Python's `xs[-m:]` starts in a list of `len` items: a positive
      `m` keeps the last `m` (or all when there are fewer), `-0` is `0` and
      keeps everything, and a negative `m` drops the first `-m`. */
  function TailStart(len: nat, m: int): (r: nat)
    ensures r <= len
    ensures m > 0 ==> len - r == (if m < len then m else len)
    ensures m == 0 ==> r == 0
    ensures m < 0 ==> r == (if -m < len then -m else len)
  {
    if m > 0 then (if m < len then len - m else 0)
    else if m == 0 then 0
    else if -m < len then -m else len
  }

  /** `f"{func_name}({args_summary})"` for one tool call. The call and its
      `function` must be dictionaries, and the arguments are clipped to 70
      characters plus `...`; long arguments that are not a string cannot be
      joined to `...` and raise. */
  function ToolCallText(call: Json): (r: Outcome<string>)
    ensures r.Ok? ==> call.JObj? && Field(call.entries, "function", Empty).JObj?
  {
    if !call.JObj? then Raised
    else
      var fn := Field(call.entries, "function", Empty);
      if !fn.JObj? then Raised
      else
        var summary :- ClipValue(Field(fn.entries, "arguments", JStr("{}")), ArgumentsLimit);
        Ok(PyStr(Field(fn.entries, "name", JStr("N/A"))) + "(" + PyStr(summary) + ")")
  }

  /** The head of a message's entry: upper-cased role and clipped content. */
  function EntryHead(role: string, content: string): string
  {
    "\n- **[" + Upper(role) + "]**: " + Truncate(content, ContentLimit)
  }

  /** ` -> Calls: [...]`, the tool calls of a message. */
  function CallsSuffix(texts: seq<string>): string
  {
    " -> Calls: [" + Join(", ", texts) + "]"
  }

  /** One message's entry; a message that is not a dictionary, or whose
      role is not a string, raises. Only a non-empty list of tool calls is
      shown. */
  function MessageEntry(msg: Json): (r: Outcome<string>)
    ensures r.Ok? ==> msg.JObj? && Field(msg.entries, "role", JStr("unknown_role")).JStr?
  {
    if !msg.JObj? || !Field(msg.entries, "role", JStr("unknown_role")).JStr? then Raised
    else
      var entry := EntryHead(Field(msg.entries, "role", JStr("unknown_role")).s,
                             PyStr(Field(msg.entries, "content", JStr(""))));
      var calls := Field(msg.entries, "tool_calls", JNull);
      if calls.JArr? && calls.items != [] then
        var texts :- TryMap(calls.items, ToolCallText);
        Ok(entry + CallsSuffix(texts))
      else Ok(entry)
  }

  function OmissionLine(omitted: int): string
  {
    "\n... (omitting " + IntToStr(omitted) + " older messages)"
  }

  /** The parts that are joined by newlines: the opening tag, an entry per
      message from `start` on, the omission line when there is one, and the
      closing tag. */
  function LogParts(xs: seq<Json>, start: nat, omitted: Option<int>): (r: Outcome<seq<string>>)
    requires start <= |xs|
    ensures r.Ok? <==> forall i :: start <= i < |xs| ==> MessageEntry(xs[i]).Ok?
  {
    var entries :- TryMap(xs[start..], MessageEntry);
    Ok([LogOpen] + entries + (if omitted.Some? then [OmissionLine(omitted.value)] else []) + [LogClose])
  }

  /** `principal_history_summary_ingestor`: a payload that is not a
      non-empty list gives a fixed text; otherwise the messages of
      `payload[-max_messages:]`, and an omission line when the payload is
      longer than `max_messages`. */
  function Summary(payload: Json, params: seq<(string, Json)>): (r: Outcome<string>)
    ensures !payload.JArr? || payload.items == [] ==> r == Ok(NoActivityLog)
  {
    if !payload.JArr? || payload.items == [] then Ok(NoActivityLog)
    else
      var m :- MaxMessages(params);
      var xs := payload.items;
      var parts :- LogParts(xs, TailStart(|xs|, m), if |xs| > m then Some(|xs| - m) else None);
      Ok(Join("\n", parts))
  }

  /** The loop over one message's tool calls. */
  method FormatEntry(msg: Json) returns (r: Outcome<string>)
    ensures r == MessageEntry(msg)
  {
    if !msg.JObj? {
      return Raised;
    }
    var role := Field(msg.entries, "role", JStr("unknown_role"));
    if !role.JStr? {
      return Raised;
    }
    var entry := EntryHead(role.s, PyStr(Field(msg.entries, "content", JStr(""))));
    var calls := Field(msg.entries, "tool_calls", JNull);
    if calls.JArr? && calls.items != [] {
      var texts := FormatCalls(calls.items);
      if texts.Raised? {
        return Raised;
      }
      entry := entry + CallsSuffix(texts.value);
    }
    return Ok(entry);
  }

  /** The loop over one message's tool calls. */
  method FormatCalls(calls: seq<Json>) returns (r: Outcome<seq<string>>)
    ensures r == TryMap(calls, ToolCallText)
  {
    var texts: seq<string> := [];
    for j := 0 to |calls|
      invariant TryMap(calls[..j], ToolCallText) == Ok(texts)
    {
      var text := ToolCallText(calls[j]);
      if text.Raised? {
        return Raised;
      }
      TryMapStep(calls, j, ToolCallText);
      texts := texts + [text.value];
    }
    assert calls[..|calls|] == calls;
    return Ok(texts);
  }

  /** The ingestor as written, appending to its list of parts. */
  method SummarizeHistory(payload: Json, params: seq<(string, Json)>) returns (r: Outcome<string>)
    ensures r == Summary(payload, params)
  {
    if !payload.JArr? || payload.items == [] {
      return Ok(NoActivityLog);
    }
    var max := MaxMessages(params);
    if max.Raised? {
      return Raised;
    }
    var m := max.value;
    var xs := payload.items;
    var start := TailStart(|xs|, m);
    var entries := FormatEntries(xs[start..]);
    if entries.Raised? {
      return Raised;
    }
    var omitted: Option<int> := None;
    var omission: seq<string> := [];
    if |xs| > m {
      omitted := Some(|xs| - m);
      omission := [OmissionLine(|xs| - m)];
    }
    var parts := [LogOpen] + entries.value + omission + [LogClose];
    assert LogParts(xs, start, omitted) == Ok(parts);
    return Ok(Join("\n", parts));
  }

  /** The loop over the shown messages. */
  method FormatEntries(shown: seq<Json>) returns (r: Outcome<seq<string>>)
    ensures r == TryMap(shown, MessageEntry)
  {
    var entries: seq<string> := [];
    for i := 0 to |shown|
      invariant TryMap(shown[..i], MessageEntry) == Ok(entries)
    {
      var entry := FormatEntry(shown[i]);
      if entry.Raised? {
        return Raised;
      }
      TryMapStep(shown, i, MessageEntry);
      entries := entries + [entry.value];
    }
    assert shown[..|shown|] == shown;
    return Ok(entries);
  }

  /** An ending part of a join is an ending of the joined text. */
  lemma JoinEndsWith(sep: string, parts: seq<string>, last: string)
    ensures EndsWith(Join(sep, parts + [last]), last)
  {
    JoinAppend(sep, parts, last);
    var j := Join(sep, parts + [last]);
    assert j[|j| - |last|..] == last;
  }

  /** The parts of a log: the tags around one entry per message from
      `start` on, in order, and the omission line when there is one. */
  lemma LogPartsLayout(xs: seq<Json>, start: nat, omitted: Option<int>)
    requires start <= |xs| && LogParts(xs, start, omitted).Ok?
    ensures var parts := LogParts(xs, start, omitted).value;
            && |parts| == |xs| - start + 2 + (if omitted.Some? then 1 else 0)
            && parts[0] == LogOpen && parts[|parts| - 1] == LogClose
            && (forall i :: start <= i < |xs| ==> parts[1 + i - start] == MessageEntry(xs[i]).value)
            && (omitted.Some? ==> parts[|xs| - start + 1] == OmissionLine(omitted.value))
  {
    var entries := TryMap(xs[start..], MessageEntry).value;
    var extra := if omitted.Some? then [OmissionLine(omitted.value)] else [];
    assert LogParts(xs, start, omitted).value == [LogOpen] + entries + extra + [LogClose];
    Framed(LogOpen, entries, extra, LogClose);
    forall i | start <= i < |xs|
      ensures entries[i - start] == MessageEntry(xs[i]).value
    {
      assert xs[start..][i - start] == xs[i];
    }
  }

  /** Where each piece sits in a framed list of parts. */
  lemma Framed(first: string, middle: seq<string>, extra: seq<string>, last: string)
    ensures var parts := [first] + middle + extra + [last];
            && |parts| == |middle| + |extra| + 2
            && parts[0] == first && parts[|parts| - 1] == last
            && (forall i :: 0 <= i < |middle| ==> parts[1 + i] == middle[i])
            && (forall i :: 0 <= i < |extra| ==> parts[1 + |middle| + i] == extra[i])
  {
  }

  /** Joined parts that begin with the opening tag and end with the closing
      one begin and end with those tags. */
  lemma JoinedInTags(parts: seq<string>)
    requires |parts| >= 2 && parts[0] == LogOpen && parts[|parts| - 1] == LogClose
    ensures StartsWith(Join("\n", parts), LogOpen) && EndsWith(Join("\n", parts), LogClose)
  {
    JoinedBetween("\n", parts, LogOpen, LogClose);
  }

  /** Joined parts begin with the first part and end with the last. */
  lemma JoinedBetween(sep: string, parts: seq<string>, first: string, last: string)
    requires |parts| >= 2 && parts[0] == first && parts[|parts| - 1] == last
    ensures StartsWith(Join(sep, parts), first) && EndsWith(Join(sep, parts), last)
  {
    JoinPrefix(sep, parts);
    assert parts == parts[..|parts| - 1] + [last];
    JoinEndsWith(sep, parts[..|parts| - 1], last);
  }

  /** A summary is its parts joined by newlines, inside the log tags, and
      for a positive `max_messages` it shows the last that many messages,
      or all when there are fewer. */
  lemma SummaryTagged(payload: Json, params: seq<(string, Json)>)
    requires payload.JArr? && payload.items != [] && MaxMessages(params).Ok? && Summary(payload, params).Ok?
    ensures var xs := payload.items;
            var m := MaxMessages(params).value;
            var start := TailStart(|xs|, m);
            var parts := LogParts(xs, start, if |xs| > m then Some(|xs| - m) else None).value;
            var r := Summary(payload, params).value;
            && r == Join("\n", parts)
            && StartsWith(r, LogOpen) && EndsWith(r, LogClose)
            && (m > 0 ==> |xs| - start == (if m < |xs| then m else |xs|))
  {
    var xs := payload.items;
    var m := MaxMessages(params).value;
    var omitted := if |xs| > m then Some(|xs| - m) else None;
    var parts := LogParts(xs, TailStart(|xs|, m), omitted).value;
    assert Summary(payload, params) == Ok(Join("\n", parts));
    LogPartsLayout(xs, TailStart(|xs|, m), omitted);
    JoinedInTags(parts);
  }

  /** An entry shows the upper-cased role and the content clipped to 200
      characters, marked with `...` when it was longer; without tool calls
      that is the whole entry. */
  lemma EntryClipsContent(msg: Json)
    requires MessageEntry(msg).Ok?
    ensures var head := "\n- **[" + Upper(Field(msg.entries, "role", JStr("unknown_role")).s) + "]**: ";
            var content := PyStr(Field(msg.entries, "content", JStr("")));
            var calls := Field(msg.entries, "tool_calls", JNull);
            var r := MessageEntry(msg).value;
            && (|content| <= ContentLimit ==> StartsWith(r, head + content))
            && (|content| > ContentLimit ==> StartsWith(r, head + content[..ContentLimit] + "..."))
            && (!(calls.JArr? && calls.items != []) ==> |r| <= |head| + ContentLimit + 3)
  {
    var role := Field(msg.entries, "role", JStr("unknown_role")).s;
    var content := PyStr(Field(msg.entries, "content", JStr("")));
    var calls := Field(msg.entries, "tool_calls", JNull);
    if calls.JArr? && calls.items != [] {
      var texts := TryMap(calls.items, ToolCallText).value;
      HeadLeads(role, content, CallsSuffix(texts));
    } else {
      HeadLeads(role, content, "");
    }
  }

  /** Whatever follows the head of an entry, the entry starts with the role
      and the clipped content. */
  lemma HeadLeads(role: string, content: string, rest: string)
    ensures var head := "\n- **[" + Upper(role) + "]**: ";
            var r := EntryHead(role, content) + rest;
            && (|content| <= ContentLimit ==> StartsWith(r, head + content))
            && (|content| > ContentLimit ==> StartsWith(r, head + content[..ContentLimit] + "..."))
            && |EntryHead(role, content)| <= |head| + ContentLimit + 3
  {
    var head := "\n- **[" + Upper(role) + "]**: ";
    var lead := head + Truncate(content, ContentLimit);
    assert EntryHead(role, content) == lead;
    assert (lead + rest)[..|lead|] == lead;
    if |content| > ContentLimit {
      assert Truncate(content, ContentLimit) == content[..ContentLimit] + "...";
    }
  }

  /** A tool call with string arguments shows them clipped to 70
      characters; longer arguments of another kind raise. */
  lemma ToolCallClipsArguments(call: Json)
    requires call.JObj? && Field(call.entries, "function", Empty).JObj?
    ensures var fn := Field(call.entries, "function", Empty).entries;
            var arguments := Field(fn, "arguments", JStr("{}"));
            var name := Field(fn, "name", JStr("N/A"));
            && (arguments.JStr? ==>
                  ToolCallText(call) == Ok(PyStr(name) + "(" + Truncate(arguments.s, ArgumentsLimit) + ")"))
            && ((arguments.JArr? && |arguments.items| > ArgumentsLimit) ==> ToolCallText(call).Raised?)
  {
  }

  // ---------------------------------------------------------------------------
  // A limit that is not positive
  // ---------------------------------------------------------------------------

  /** As written, `max_messages = 0` renders every message, because `-0`
      is `0`, and yet reports all of them as omitted. */
  lemma ZeroLimitShowsAllOmitsAll(payload: Json, params: seq<(string, Json)>)
    requires payload.JArr? && payload.items != [] && Lookup(params, "max_messages") == Some(JInt(0))
    requires MaxMessages(params).Ok? && Summary(payload, params).Ok?
    ensures var xs := payload.items;
            var parts := LogParts(xs, TailStart(|xs|, 0), Some(|xs|)).value;
            && Summary(payload, params) == Ok(Join("\n", parts))
            && TailStart(|xs|, 0) == 0
            && |parts| == |xs| + 3
            && parts[|xs| + 1] == OmissionLine(|xs|)
  {
    SummaryTagged(payload, params);
    LogPartsLayout(payload.items, 0, Some(|payload.items|));
  }

  /** Where the shown messages start when the limit is clamped to
      `0 .. len`: the last `min(max(m, 0), len)` messages. */
  function ClampedStart(len: nat, m: int): (r: nat)
    ensures r <= len
    ensures len - r == (if m <= 0 then 0 else if m < len then m else len)
  {
    if m <= 0 then len else if m < len then len - m else 0
  }

  /** The summary with a clamped limit: the omission line counts exactly
      the messages that are not shown. */
  function ClampedSummary(payload: Json, params: seq<(string, Json)>): (r: Outcome<string>)
    ensures !payload.JArr? || payload.items == [] ==> r == Ok(NoActivityLog)
  {
    if !payload.JArr? || payload.items == [] then Ok(NoActivityLog)
    else
      var m :- MaxMessages(params);
      var xs := payload.items;
      var start := ClampedStart(|xs|, m);
      var parts :- LogParts(xs, start, if start > 0 then Some(start) else None);
      Ok(Join("\n", parts))
  }

  /** With the clamped limit, no more than `max(m, 0)` messages are shown,
      and the omission line counts exactly the messages that are not shown
      and appears only when there are some. */
  lemma ClampedSummaryAccounts(payload: Json, params: seq<(string, Json)>)
    requires payload.JArr? && payload.items != [] && MaxMessages(params).Ok?
    ensures var xs := payload.items;
            var m := MaxMessages(params).value;
            var start := ClampedStart(|xs|, m);
            && (m <= 0 ==> |xs| - start == 0)
            && (m > 0 ==> |xs| - start <= m)
            && (ClampedSummary(payload, params).Ok? ==>
                  var parts := LogParts(xs, start, if start > 0 then Some(start) else None).value;
                  && ClampedSummary(payload, params) == Ok(Join("\n", parts))
                  && (start > 0 ==> |parts| == (|xs| - start) + 3 && parts[|xs| - start + 1] == OmissionLine(start))
                  && (start == 0 ==> |parts| == |xs| + 2))
  {
    var xs := payload.items;
    var start := ClampedStart(|xs|, MaxMessages(params).value);
    var omitted := if start > 0 then Some(start) else None;
    if ClampedSummary(payload, params).Ok? {
      assert LogParts(xs, start, omitted).Ok?;
      assert ClampedSummary(payload, params) == Ok(Join("\n", LogParts(xs, start, omitted).value));
      LogPartsLayout(xs, start, omitted);
    }
  }

  /** For a positive limit the clamped summary is the ingestor's own. */
  lemma ClampedAgrees(payload: Json, params: seq<(string, Json)>)
    requires payload.JArr? && payload.items != [] && MaxMessages(params).Ok? && MaxMessages(params).value > 0
    ensures ClampedSummary(payload, params) == Summary(payload, params)
  {
    var xs := payload.items;
    var m := MaxMessages(params).value;
    assert ClampedStart(|xs|, m) == TailStart(|xs|, m);
    assert (ClampedStart(|xs|, m) > 0) == (|xs| > m);
    if |xs| > m {
      assert ClampedStart(|xs|, m) == |xs| - m;
    }
  }
}
