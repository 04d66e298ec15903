/** The ingestors that turn an event payload into the text injected into an
    agent's prompt: wrapper tags, templates filled from the payload or from
    the agent's text definitions, Markdown lists, tool results and handover
    briefings. Each takes the payload, the ingestor's parameters and the
    run context (both dictionaries) and returns the text. */
module Ingestors {
  import opened Outcomes
  import opened PyText
  import opened Json
  import opened Seqs
  import opened Markdown

  // ---------------------------------------------------------------------------
  // Wrapper tags (`tagged_content_ingestor`, `templated_content_ingestor`)
  // ---------------------------------------------------------------------------

  /** `wrapper_tags and isinstance(wrapper_tags, list) and len(wrapper_tags) == 2`. */
  predicate IsTagPair(tags: Json)
  {
    tags.JArr? && |tags.items| == 2
  }

  /** `f"{tags[0]}{content}{tags[1]}"` for a pair of tags, the content
      itself otherwise. */
  function Wrap(content: string, tags: Json): (r: string)
    ensures IsTagPair(tags) ==>
              var open := PyStr(tags.items[0]);
              var close := PyStr(tags.items[1]);
              && StartsWith(r, open) && EndsWith(r, close)
              && |r| == |open| + |content| + |close|
              && r[|open|..|r| - |close|] == content
    ensures !IsTagPair(tags) ==> r == content
  {
    if IsTagPair(tags) then
      var r := PyStr(tags.items[0]) + content + PyStr(tags.items[1]);
      assert r[..|PyStr(tags.items[0])|] == PyStr(tags.items[0]);
      assert r[|r| - |PyStr(tags.items[1])|..] == PyStr(tags.items[1]);
      r
    else content
  }

  /** `tagged_content_ingestor`: `str(payload)` inside the wrapper tags, or
      bare when there is no pair of tags. */
  function TaggedContent(payload: Json, params: seq<(string, Json)>): (r: string)
    ensures var tags := Field(params, "wrapper_tags", JNull);
            && (IsTagPair(tags) ==>
                  var open := PyStr(tags.items[0]);
                  var close := PyStr(tags.items[1]);
                  && StartsWith(r, open) && EndsWith(r, close)
                  && |r| == |open| + |PyStr(payload)| + |close|
                  && r[|open|..|r| - |close|] == PyStr(payload))
            && (!IsTagPair(tags) ==> r == PyStr(payload))
  {
    Wrap(PyStr(payload), Field(params, "wrapper_tags", JNull))
  }

  // ---------------------------------------------------------------------------
  // Template interpolation (`templated_content_ingestor`)
  // ---------------------------------------------------------------------------

  /** `_apply_simple_template_interpolation`: a value that is not a string,
      or a string without `{{`, comes back unchanged; otherwise every
      `{{ path }}` is substituted from the context, which `substitute`
      stands for. */
  function Interpolate(text: Json, substitute: string -> string): (r: Json)
    ensures !text.JStr? || !Contains(text.s, "{{") ==> r == text
    ensures text.JStr? && Contains(text.s, "{{") ==> r == JStr(substitute(text.s))
  {
    if text.JStr? && Contains(text.s, "{{") then JStr(substitute(text.s)) else text
  }

  /** `definitions.get(key)`: only a dictionary has `.get`, and a list or
      dictionary cannot be a key; a key that is not a string is never
      found among string keys. */
  function LookupByValue(definitions: Json, key: Json): (r: Outcome<Json>)
    ensures r.Ok? <==> definitions.JObj? && !key.JArr? && !key.JObj?
    ensures r.Ok? && key.JStr? ==> r.value == Field(definitions.entries, key.s, JNull)
    ensures r.Ok? && !key.JStr? ==> r.value == JNull
  {
    if !definitions.JObj? || key.JArr? || key.JObj? then Raised
    else if key.JStr? then Ok(Field(definitions.entries, key.s, JNull))
    else Ok(JNull)
  }

  function InvalidPayloadMessage(payload: Json): string
  {
    "[Error: Ingestor received an invalid payload: " + PyStr(payload) + "]"
  }

  function TemplateNotFoundMessage(key: Json): string
  {
    "[Error: Template '" + PyStr(key) + "' not found]"
  }

  /** `templated_content_ingestor`: the template named by the payload's
      `content_key` among the loaded profile's `text_definitions`,
      interpolated and then wrapped. A profile or definitions that are not
      dictionaries raise. */
  function TemplatedContent(payload: Json, params: seq<(string, Json)>, context: seq<(string, Json)>,
                            substitute: string -> string): (r: Outcome<Json>)
    ensures !payload.JObj? || Lookup(payload.entries, "content_key").None? ==>
              r == Ok(JStr(InvalidPayloadMessage(payload)))
  {
    if !payload.JObj? || Lookup(payload.entries, "content_key").None? then Ok(JStr(InvalidPayloadMessage(payload)))
    else
      var key := Lookup(payload.entries, "content_key").value;
      var profile := Field(context, "loaded_profile", Empty);
      var definitions :- Get(profile, "text_definitions", Empty);
      var template :- LookupByValue(definitions, key);
      if !Truthy(template) then Ok(JStr(TemplateNotFoundMessage(key)))
      else
        var rendered := Interpolate(template, substitute);
        var tags := Field(params, "wrapper_tags", JNull);
        if IsTagPair(tags) then Ok(JStr(Wrap(PyStr(rendered), tags))) else Ok(rendered)
  }

  /** A template found under its key is interpolated and then wrapped:
      inside a pair of tags when the parameters give one, returned as it is
      otherwise; a template without `{{` is used verbatim. */
  lemma TemplatedWraps(payload: Json, params: seq<(string, Json)>, context: seq<(string, Json)>,
                       substitute: string -> string, key: string, template: Json)
    requires payload.JObj? && Lookup(payload.entries, "content_key") == Some(JStr(key))
    requires var profile := Field(context, "loaded_profile", Empty);
             profile.JObj? && Field(profile.entries, "text_definitions", Empty).JObj?
    requires var definitions := Field(Field(context, "loaded_profile", Empty).entries, "text_definitions", Empty);
             Field(definitions.entries, key, JNull) == template && Truthy(template)
    ensures var tags := Field(params, "wrapper_tags", JNull);
            var rendered := Interpolate(template, substitute);
            && (IsTagPair(tags) ==> TemplatedContent(payload, params, context, substitute) == Ok(JStr(Wrap(PyStr(rendered), tags))))
            && (!IsTagPair(tags) ==> TemplatedContent(payload, params, context, substitute) == Ok(rendered))
            && (template.JStr? && !Contains(template.s, "{{") ==> rendered == template)
  {
  }

  /** A key whose template is missing or empty gives the not-found message,
      whatever the wrapper tags; a loaded profile that is not a dictionary
      raises. */
  lemma TemplateMissing(payload: Json, params: seq<(string, Json)>, context: seq<(string, Json)>,
                        substitute: string -> string, key: string)
    requires payload.JObj? && Lookup(payload.entries, "content_key") == Some(JStr(key))
    ensures var profile := Field(context, "loaded_profile", Empty);
            && (!profile.JObj? ==> TemplatedContent(payload, params, context, substitute).Raised?)
            && (profile.JObj? && Field(profile.entries, "text_definitions", Empty).JObj? &&
                !Truthy(Field(Field(profile.entries, "text_definitions", Empty).entries, key, JNull)) ==>
                  TemplatedContent(payload, params, context, substitute) == Ok(JStr(TemplateNotFoundMessage(JStr(key)))))
  {
  }

  // ---------------------------------------------------------------------------
  // `generic_message_ingestor`
  // ---------------------------------------------------------------------------

  const PayloadPlaceholder := "{{ payload }}"

  /** `f"{{{{ payload.{key} }}}}"`, the placeholder of one payload field. */
  function FieldPlaceholder(key: string): (r: string)
    ensures |r| == |key| + 14
  {
    "{{ payload." + key + " }}"
  }

  /** The template after the loop over the payload's fields `es`, in order:
      each field's placeholder replaced by `str` of its value. */
  function SubstituteFields(template: string, es: seq<(string, Json)>): string
    decreases |es|
  {
    if es == [] then template
    else
      var last := es[|es| - 1];
      ReplaceAll(SubstituteFields(template, es[..|es| - 1]), FieldPlaceholder(last.0), PyStr(last.1))
  }

  /** `generic_message_ingestor`: the `content_template` parameter, by
      default `{{ payload }}`, with the fields of a dictionary payload
      substituted and then `{{ payload }}` replaced by `str(payload)`. A
      template that is not a string has no `.replace` and raises. */
  function GenericMessage(payload: Json, params: seq<(string, Json)>): (r: Outcome<string>)
    ensures r.Ok? <==> Field(params, "content_template", JStr(PayloadPlaceholder)).JStr?
  {
    var template :- AsStr(Field(params, "content_template", JStr(PayloadPlaceholder)));
    var filled := if payload.JObj? then SubstituteFields(template, payload.entries) else template;
    Ok(ReplaceAll(filled, PayloadPlaceholder, PyStr(payload)))
  }

  /** The ingestor with its loop rebinding the template. */
  method GenericMessageIngest(payload: Json, params: seq<(string, Json)>) returns (r: Outcome<string>)
    ensures r == GenericMessage(payload, params)
  {
    var given := Field(params, "content_template", JStr(PayloadPlaceholder));
    if !given.JStr? {
      return Raised;
    }
    var template := given.s;
    if payload.JObj? {
      var es := payload.entries;
      for i := 0 to |es|
        invariant template == SubstituteFields(given.s, es[..i])
      {
        assert es[..i + 1][..i] == es[..i];
        template := ReplaceAll(template, FieldPlaceholder(es[i].0), PyStr(es[i].1));
      }
      assert es[..|es|] == es;
    }
    r := Ok(ReplaceAll(template, PayloadPlaceholder, PyStr(payload)));
  }

  /** No field placeholder fits in the default template, so the field loop
      leaves it alone. */
  lemma {:induction false} DefaultTemplateKept(es: seq<(string, Json)>)
    ensures SubstituteFields(PayloadPlaceholder, es) == PayloadPlaceholder
    decreases |es|
  {
    if es != [] {
      var last := es[|es| - 1];
      DefaultTemplateKept(es[..|es| - 1]);
      ContainsLonger(PayloadPlaceholder, FieldPlaceholder(last.0));
      ReplaceAbsent(PayloadPlaceholder, FieldPlaceholder(last.0), PyStr(last.1));
    }
  }

  /** Without a `content_template` the message is `str(payload)`. */
  lemma DefaultTemplateIsStr(payload: Json, params: seq<(string, Json)>)
    requires Lookup(params, "content_template").None?
    ensures GenericMessage(payload, params) == Ok(PyStr(payload))
  {
    if payload.JObj? {
      DefaultTemplateKept(payload.entries);
    }
    ReplaceWhole(PayloadPlaceholder, PyStr(payload));
  }

  /** A template without `{{` survives the field loop unchanged. */
  lemma {:induction false} PlainTemplateKept(template: string, es: seq<(string, Json)>)
    requires !Contains(template, "{{")
    ensures SubstituteFields(template, es) == template
    decreases |es|
  {
    if es != [] {
      var last := es[|es| - 1];
      PlainTemplateKept(template, es[..|es| - 1]);
      NoFieldPlaceholder(template, last.0, PyStr(last.1));
    }
  }

  /** A template without `{{` has no field placeholder to replace. */
  lemma NoFieldPlaceholder(template: string, key: string, value: string)
    requires !Contains(template, "{{")
    ensures ReplaceAll(template, FieldPlaceholder(key), value) == template
  {
    assert FieldPlaceholder(key) == "{{" + (" payload." + key + " }}");
    if Contains(template, FieldPlaceholder(key)) {
      ContainsPrefix(template, "{{", " payload." + key + " }}");
    }
    ReplaceAbsent(template, FieldPlaceholder(key), value);
  }

  /** A template without `{{` is the message, whatever the payload. */
  lemma PlainTemplateIsMessage(payload: Json, params: seq<(string, Json)>, template: string)
    requires Lookup(params, "content_template") == Some(JStr(template)) && !Contains(template, "{{")
    ensures GenericMessage(payload, params) == Ok(template)
  {
    if payload.JObj? {
      PlainTemplateKept(template, payload.entries);
    }
    assert PayloadPlaceholder == "{{" + " payload }}";
    if Contains(template, PayloadPlaceholder) {
      ContainsPrefix(template, "{{", " payload }}");
    }
    ReplaceAbsent(template, PayloadPlaceholder, PyStr(payload));
  }

  // ---------------------------------------------------------------------------
  // `markdown_formatter_ingestor`
  // ---------------------------------------------------------------------------

  const DefaultListTitle := "### Contextual Information"

  /** The line of one payload field, `*   **{display}**: {value}`. */
  function ListLine(display: Json, value: Json): string
  {
    "*   **" + PyStr(display) + "**: " + PyStr(value)
  }

  /** One turn of the field loop: nothing for an excluded key, otherwise the
      line under the renamed or displayed key. `in` on an exclusion value
      that is not a container, or `.get` on renames that are not a
      dictionary, raise. */
  function FieldLine(renames: Json, excluded: Json, entry: (string, Json)): (r: Outcome<Option<string>>)
    ensures excluded.JArr? && JStr(entry.0) in excluded.items ==> r == Ok(None)
    ensures excluded.JArr? && JStr(entry.0) !in excluded.items && renames.JObj? ==>
              r == Ok(Some(ListLine(Field(renames.entries, entry.0, JStr(DisplayName(entry.0))), entry.1)))
  {
    var skip :- PyIn(JStr(entry.0), excluded);
    if skip then Ok(None)
    else
      var display :- Get(renames, entry.0, JStr(DisplayName(entry.0)));
      Ok(Some(ListLine(display, entry.1)))
  }

  /** The field loop for given renames and exclusions. */
  function FieldLines(renames: Json, excluded: Json): ((string, Json)) -> Outcome<Option<string>>
  {
    (entry: (string, Json)) => FieldLine(renames, excluded, entry)
  }

  /** `markdown_formatter_ingestor`: a non-dictionary payload is its `str`;
      otherwise the title line followed by a line per field that is not
      excluded, joined by newlines. Joining a title that is not a string
      raises. */
  function MarkdownList(payload: Json, params: seq<(string, Json)>): (r: Outcome<string>)
    ensures !payload.JObj? ==> r == Ok(PyStr(payload))
  {
    if !payload.JObj? then Ok(PyStr(payload))
    else
      var renames := Field(params, "key_renames", Empty);
      var excluded := Field(params, "exclude_keys", JArr([]));
      var lines :- TryFilterMap(payload.entries, FieldLines(renames, excluded));
      var title :- AsStr(Field(params, "title", JStr(DefaultListTitle)));
      Ok(Join("\n", [title] + lines))
  }

  /** The ingestor with its field loop. */
  method MarkdownListIngest(payload: Json, params: seq<(string, Json)>) returns (r: Outcome<string>)
    ensures r == MarkdownList(payload, params)
  {
    if !payload.JObj? {
      return Ok(PyStr(payload));
    }
    var renames := Field(params, "key_renames", Empty);
    var excluded := Field(params, "exclude_keys", JArr([]));
    var lines := TryCollect(payload.entries, FieldLines(renames, excluded));
    if lines.Raised? {
      return Raised;
    }
    var title := Field(params, "title", JStr(DefaultListTitle));
    if !title.JStr? {
      return Raised;
    }
    r := Ok(Join("\n", [title.s] + lines.value));
  }

  /** The entries a list of excluded keys lets through, in payload order. */
  function KeptEntry(excluded: seq<Json>): ((string, Json)) -> Option<(string, Json)>
  {
    (entry: (string, Json)) => if JStr(entry.0) in excluded then None else Some(entry)
  }

  /** The line a kept field gets, under its rename or its display name. */
  function ShowField(renames: seq<(string, Json)>, entry: (string, Json)): string
  {
    ListLine(Field(renames, entry.0, JStr(DisplayName(entry.0))), entry.1)
  }

  /** The field loop when nothing can raise: a list of exclusions and a
      dictionary of renames. */
  function ShownLine(excluded: seq<Json>, renames: seq<(string, Json)>): ((string, Json)) -> Option<string>
  {
    (entry: (string, Json)) => if JStr(entry.0) in excluded then None else Some(ShowField(renames, entry))
  }

  /** The lines of the kept fields, one each and in order. */
  function ShowAll(renames: seq<(string, Json)>, kept: seq<(string, Json)>): (r: seq<string>)
    ensures |r| == |kept|
    ensures forall i :: 0 <= i < |kept| ==> r[i] == ShowField(renames, kept[i])
  {
    if kept == [] then [] else [ShowField(renames, kept[0])] + ShowAll(renames, kept[1..])
  }

  /** With a list of exclusions and a dictionary of renames, the text is the
      title followed by exactly one line per field that is not excluded, in
      payload order, each showing the field's value under its rename or
      display name. */
  lemma MarkdownOneLinePerField(payload: Json, params: seq<(string, Json)>, title: string)
    requires payload.JObj?
    requires Field(params, "exclude_keys", JArr([])).JArr? && Field(params, "key_renames", Empty).JObj?
    requires Field(params, "title", JStr(DefaultListTitle)) == JStr(title)
    ensures var excluded := Field(params, "exclude_keys", JArr([])).items;
            var renames := Field(params, "key_renames", Empty).entries;
            var kept := FilterMap(payload.entries, KeptEntry(excluded));
            && |kept| <= |payload.entries|
            && (forall e :: e in kept <==> e in payload.entries && JStr(e.0) !in excluded)
            && MarkdownList(payload, params) == Ok(Join("\n", [title] + ShowAll(renames, kept)))
  {
    var excluded := Field(params, "exclude_keys", JArr([]));
    var renames := Field(params, "key_renames", Empty);
    var es := payload.entries;
    forall i | 0 <= i < |es|
      ensures FieldLines(renames, excluded)(es[i]) == Ok(ShownLine(excluded.items, renames.entries)(es[i]))
    {
    }
    TryFilterMapOk(es, FieldLines(renames, excluded), ShownLine(excluded.items, renames.entries));
    FilterMapLength(es, KeptEntry(excluded.items));
    KeptLines(es, excluded.items, renames.entries);
    forall e
      ensures e in FilterMap(es, KeptEntry(excluded.items)) <==> e in es && JStr(e.0) !in excluded.items
    {
      FilterMapMembers(es, KeptEntry(excluded.items), e);
    }
  }

  /** Filtering the lines is showing the kept entries. */
  lemma {:induction false} KeptLines(es: seq<(string, Json)>, excluded: seq<Json>, renames: seq<(string, Json)>)
    ensures FilterMap(es, ShownLine(excluded, renames)) == ShowAll(renames, FilterMap(es, KeptEntry(excluded)))
  {
    if es != [] {
      KeptLines(es[1..], excluded, renames);
      var rest := FilterMap(es[1..], KeptEntry(excluded));
      if JStr(es[0].0) !in excluded {
        assert ([es[0]] + rest)[1..] == rest;
      }
    }
  }

  // ---------------------------------------------------------------------------
  // `tool_result_ingestor`
  // ---------------------------------------------------------------------------

  const DehydratedPrefix := "<#CGKB-"
  const ErrorReportOpen := "<tool_error_report>\n"
  const ErrorReportClose := "\n</tool_error_report>"

  /** The report of a failed tool: a flag, the tool's name and the content. */
  function ErrorReport(toolName: Json, content: Json): Json
  {
    JObj([("tool_execution_failed", JBool(true)), ("tool_name", toolName), ("error_details", content)])
  }

  /** `tool_result_ingestor`. In order: a non-dictionary payload is its
      `str`; a dehydrated knowledge-base token is returned verbatim; an error
      is reported as JSON inside `tool_error_report` tags; results of
      `dispatch_submodules` go to the dispatch formatter; a
      `main_content_for_llm` entry is shown as Markdown; a `_raw_json` entry
      as JSON; anything else as Markdown. `dumps` stands for
      `json.dumps(..., indent=2)` and `dispatch` for
      `dispatch_result_ingestor`. */
  function ToolResult(payload: Json, dumps: Json -> string, dispatch: Json -> Outcome<string>): (r: Outcome<string>)
    ensures !payload.JObj? ==> r == Ok(PyStr(payload))
    ensures payload.JObj? ==>
              var content := Field(payload.entries, "content", Empty);
              && (content.JStr? && StartsWith(content.s, DehydratedPrefix) ==> r == Ok(content.s))
              && (!(content.JStr? && StartsWith(content.s, DehydratedPrefix)) &&
                  Truthy(Field(payload.entries, "is_error", JBool(false))) ==>
                    r.Ok? && StartsWith(r.value, ErrorReportOpen) && EndsWith(r.value, ErrorReportClose))
  {
    if !payload.JObj? then Ok(PyStr(payload))
    else
      var es := payload.entries;
      var toolName := Field(es, "tool_name", JNull);
      var content := Field(es, "content", Empty);
      if content.JStr? && StartsWith(content.s, DehydratedPrefix) then Ok(content.s)
      else if Truthy(Field(es, "is_error", JBool(false))) then
        var r := ErrorReportOpen + dumps(ErrorReport(toolName, content)) + ErrorReportClose;
        assert r[..|ErrorReportOpen|] == ErrorReportOpen;
        assert r[|r| - |ErrorReportClose|..] == ErrorReportClose;
        Ok(r)
      else if toolName == JStr("dispatch_submodules") then dispatch(payload)
      else if content.JObj? && Lookup(content.entries, "main_content_for_llm").Some? then
        Ok(Join("\n", PlainLines(Lookup(content.entries, "main_content_for_llm").value, 0)))
      else if content.JObj? && Lookup(content.entries, "_raw_json").Some? then
        Ok(dumps(Lookup(content.entries, "_raw_json").value))
      else Ok(Join("\n", PlainLines(content, 0)))
  }

  /** Which rendering a successful, non-error result gets: the main content
      wins over the raw-JSON escape hatch, and either over the whole
      content. */
  lemma ToolResultRendering(payload: Json, dumps: Json -> string, dispatch: Json -> Outcome<string>)
    requires payload.JObj?
    requires var content := Field(payload.entries, "content", Empty);
             && !(content.JStr? && StartsWith(content.s, DehydratedPrefix))
             && !Truthy(Field(payload.entries, "is_error", JBool(false)))
             && Field(payload.entries, "tool_name", JNull) != JStr("dispatch_submodules")
    ensures var content := Field(payload.entries, "content", Empty);
            var r := ToolResult(payload, dumps, dispatch);
            && (content.JObj? && Lookup(content.entries, "main_content_for_llm").Some? ==>
                  r == Ok(Join("\n", PlainLines(Lookup(content.entries, "main_content_for_llm").value, 0))))
            && (content.JObj? && Lookup(content.entries, "main_content_for_llm").None? &&
                Lookup(content.entries, "_raw_json").Some? ==>
                  r == Ok(dumps(Lookup(content.entries, "_raw_json").value)))
            && (!content.JObj? ==> r == Ok(Join("\n", PlainLines(content, 0))))
  {
  }

  // ---------------------------------------------------------------------------
  // `user_prompt_ingestor` and `protocol_aware_ingestor`
  // ---------------------------------------------------------------------------

  /** `user_prompt_ingestor`: a dictionary's `prompt`, by default empty; the
      `str` of anything else. */
  function UserPrompt(payload: Json): (r: Json)
    ensures payload.JObj? && Lookup(payload.entries, "prompt").None? ==> r == JStr("")
    ensures payload.JObj? && Lookup(payload.entries, "prompt").Some? ==> r == Lookup(payload.entries, "prompt").value
    ensures !payload.JObj? ==> r == JStr(PyStr(payload))
  {
    if payload.JObj? then Field(payload.entries, "prompt", JStr("")) else JStr(PyStr(payload))
  }

  const MalformedHandoverMessage := "[Error: Malformed handover payload]"

  /** `protocol_aware_ingestor`: a handover payload needs `data` and
      `schema_for_rendering`; its briefing is a `## ` title line, the
      schema's `x-handover-title` or `Agent Briefing`, followed by the data
      rendered under the schema. A schema that is not a dictionary raises. */
  function ProtocolAware(payload: Json): (r: Outcome<string>)
    ensures (!payload.JObj? || Lookup(payload.entries, "data").None? ||
             Lookup(payload.entries, "schema_for_rendering").None?) ==> r == Ok(MalformedHandoverMessage)
    ensures payload.JObj? && Lookup(payload.entries, "data").Some? && r.Ok? &&
            Lookup(payload.entries, "schema_for_rendering").Some? ==>
              var schema := Lookup(payload.entries, "schema_for_rendering").value;
              schema.JObj? &&
              StartsWith(r.value, "## " + PyStr(Field(schema.entries, "x-handover-title", JStr("Agent Briefing"))))
  {
    if !payload.JObj? || Lookup(payload.entries, "data").None? || Lookup(payload.entries, "schema_for_rendering").None? then
      Ok(MalformedHandoverMessage)
    else
      var data := Lookup(payload.entries, "data").value;
      var schema := Lookup(payload.entries, "schema_for_rendering").value;
      var title :- Get(schema, "x-handover-title", JStr("Agent Briefing"));
      var lines :- Format(data, schema, 0);
      JoinPrefix("\n", ["## " + PyStr(title)] + lines);
      Ok(Join("\n", ["## " + PyStr(title)] + lines))
  }

  /** The lines after the title are the data rendered under the schema. */
  lemma ProtocolAwareBody(payload: Json)
    requires payload.JObj? && Lookup(payload.entries, "data").Some?
    requires Lookup(payload.entries, "schema_for_rendering").Some?
    requires var schema := Lookup(payload.entries, "schema_for_rendering").value;
             schema.JObj? && Format(Lookup(payload.entries, "data").value, schema, 0).Ok?
    ensures var schema := Lookup(payload.entries, "schema_for_rendering").value;
            var title := PyStr(Field(schema.entries, "x-handover-title", JStr("Agent Briefing")));
            var lines := Format(Lookup(payload.entries, "data").value, schema, 0).value;
            ProtocolAware(payload) == Ok(if lines == [] then "## " + title else "## " + title + "\n" + Join("\n", lines))
  {
    var schema := Lookup(payload.entries, "schema_for_rendering").value;
    var title := PyStr(Field(schema.entries, "x-handover-title", JStr("Agent Briefing")));
    var lines := Format(Lookup(payload.entries, "data").value, schema, 0).value;
    JoinFront("\n", "## " + title, lines);
  }
}
