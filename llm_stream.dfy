/** The aggregation of a streamed LLM response (`LLMResponseAggregator`):
    every chunk is kept, the content and reasoning deltas are concatenated,
    tool-call fragments are merged by index, the first model name is kept,
    and text tool-call tags in the content trip an error that forces a
    retry. The events emitted per delta are not modelled. */
module LlmStream {
  import opened Outcomes
  import opened PyText
  import opened Json

  /** One fragment of a streamed tool call; `index` is absent when the
      fragment carries none, and a fragment without a function part has no
      name and no arguments. An index is an integer whenever the attribute
      exists: an attribute holding `None` is not represented. */
  datatype Fragment = Fragment(index: Option<int>, id: Option<string>, name: Option<string>, arguments: Option<string>)

  /** The delta of a chunk's first choice. */
  datatype Delta = Delta(reasoning: Option<string>, content: Option<string>, toolCalls: seq<Fragment>)

  /** A streamed chunk: its usage report, its choices and its model name. */
  datatype Chunk = Chunk(usage: Option<map<string, int>>, choices: seq<Delta>, model: Option<string>)

  /** A tool call being assembled, `{"id", "function": {"name", "arguments"}}`. */
  datatype Slot = Slot(id: Option<string>, name: string, arguments: string)

  /** The aggregator's state: content, reasoning, tool-call slots by index
      with the order in which the indices first appeared (the dictionary's
      insertion order), the raw chunks, the model used and the usage. */
  datatype Aggregate = Aggregate(content: string, reasoning: string, slots: map<int, Slot>, order: seq<int>,
                                 raw: seq<Chunk>, modelId: Option<string>, usage: Option<map<string, int>>)

  const Fresh := Aggregate("", "", map[], [], [], None, None)
  const EmptySlot := Slot(None, "", "")
  const ToolCallTag := "<tool_call>"
  const ToolCodeTag := "<tool_code>"

  /** A truthy optional string: present and non-empty. */
  predicate Given(s: Option<string>)
  {
    s.Some? && s.value != ""
  }

  /** An optional delta as text; an absent one adds nothing. */
  function Text(s: Option<string>): string
  {
    if s.Some? then s.value else ""
  }

  /** `tc_chunk.index if hasattr(tc_chunk, "index") else 0`. */
  function SlotIndex(f: Fragment): int
  {
    if f.index.Some? then f.index.value else 0
  }

  /** The slots are exactly the indices of `order`, each listed once. */
  ghost predicate WellOrdered(slots: map<int, Slot>, order: seq<int>)
  {
    && (forall k :: k in slots <==> k in order)
    && (forall i :: 0 <= i < |order| ==> order[i] in slots)
    && (forall i, j :: 0 <= i < j < |order| ==> order[i] != order[j])
  }

  /** The indices the fragments carry. */
  ghost function Indices(fs: seq<Fragment>): set<int>
  {
    set i | 0 <= i < |fs| :: SlotIndex(fs[i])
  }

  /** A fragment merged into its slot: the name and arguments grow by their
      fragments, and the id is overwritten only by a non-empty one. */
  function MergeSlot(slot: Slot, f: Fragment): (r: Slot)
    ensures r.name == slot.name + Text(f.name) && r.arguments == slot.arguments + Text(f.arguments)
    ensures r.id == if Given(f.id) then f.id else slot.id
  {
    Slot(if Given(f.id) then f.id else slot.id, slot.name + Text(f.name), slot.arguments + Text(f.arguments))
  }

  /** One fragment merged into the slots; a new index gets an empty slot
      first and goes to the end of the order. */
  function MergeFragment(slots: map<int, Slot>, order: seq<int>, f: Fragment): (r: (map<int, Slot>, seq<int>))
    ensures r.0 == slots[SlotIndex(f) := MergeSlot(if SlotIndex(f) in slots then slots[SlotIndex(f)] else EmptySlot, f)]
    ensures r.1 == if SlotIndex(f) in slots then order else order + [SlotIndex(f)]
  {
    var k := SlotIndex(f);
    if k in slots then (slots[k := MergeSlot(slots[k], f)], order)
    else (slots[k := MergeSlot(EmptySlot, f)], order + [k])
  }

  /** Merging keeps each slot's index listed once in the order. */
  lemma MergeFragmentOrdered(slots: map<int, Slot>, order: seq<int>, f: Fragment)
    requires WellOrdered(slots, order)
    ensures var r := MergeFragment(slots, order, f);
            WellOrdered(r.0, r.1)
  {
  }

  /** The fragments of one delta merged in order. */
  function MergeFragments(slots: map<int, Slot>, order: seq<int>, fs: seq<Fragment>): (r: (map<int, Slot>, seq<int>))
    decreases |fs|
  {
    if fs == [] then (slots, order)
    else
      var prev := MergeFragments(slots, order, fs[..|fs| - 1]);
      MergeFragment(prev.0, prev.1, fs[|fs| - 1])
  }

  /** A run of fragments keeps each slot's index listed once in the
      order. */
  lemma {:induction false} MergeFragmentsOrdered(slots: map<int, Slot>, order: seq<int>, fs: seq<Fragment>)
    requires WellOrdered(slots, order)
    ensures var r := MergeFragments(slots, order, fs);
            WellOrdered(r.0, r.1)
    decreases |fs|
  {
    if fs != [] {
      MergeFragmentsOrdered(slots, order, fs[..|fs| - 1]);
      var prev := MergeFragments(slots, order, fs[..|fs| - 1]);
      MergeFragmentOrdered(prev.0, prev.1, fs[|fs| - 1]);
    }
  }

  /** A run of fragments adds exactly the fragments' indices to the slots. */
  lemma {:induction false} MergeFragmentsKeys(slots: map<int, Slot>, order: seq<int>, fs: seq<Fragment>)
    ensures MergeFragments(slots, order, fs).0.Keys == slots.Keys + Indices(fs)
    decreases |fs|
  {
    if fs == [] {
      assert Indices(fs) == {};
    } else {
      MergeFragmentsKeys(slots, order, fs[..|fs| - 1]);
      IndicesSnoc(fs);
    }
  }

  lemma IndicesSnoc(fs: seq<Fragment>)
    requires fs != []
    ensures Indices(fs) == Indices(fs[..|fs| - 1]) + {SlotIndex(fs[|fs| - 1])}
  {
    var init := fs[..|fs| - 1];
    forall k | k in Indices(fs)
      ensures k in Indices(init) + {SlotIndex(fs[|fs| - 1])}
    {
      var i :| 0 <= i < |fs| && SlotIndex(fs[i]) == k;
      if i < |init| {
        assert SlotIndex(init[i]) == k;
      }
    }
    forall k | k in Indices(init)
      ensures k in Indices(fs)
    {
      var i :| 0 <= i < |init| && SlotIndex(init[i]) == k;
      assert SlotIndex(fs[i]) == k;
    }
  }

  /** One more fragment of a run, as the loop over a delta's fragments
      merges it. */
  lemma MergeFragmentsStep(slots: map<int, Slot>, order: seq<int>, fs: seq<Fragment>, i: nat)
    requires i < |fs|
    ensures var prev := MergeFragments(slots, order, fs[..i]);
            MergeFragments(slots, order, fs[..i + 1]) == MergeFragment(prev.0, prev.1, fs[i])
  {
    assert fs[..i + 1][..i] == fs[..i];
    assert fs[..i + 1][i] == fs[i];
  }

  /** `"<tool_call>" in content or "<tool_code>" in content`. */
  predicate Tripped(content: string)
  {
    Contains(content, ToolCallTag) || Contains(content, ToolCodeTag)
  }

  /** The content delta a chunk carries, if it has choices. */
  function ChunkContent(c: Chunk): string
  {
    if c.choices != [] then Text(c.choices[0].content) else ""
  }

  /** The reasoning delta a chunk carries, if it has choices. */
  function ChunkReasoning(c: Chunk): string
  {
    if c.choices != [] then Text(c.choices[0].reasoning) else ""
  }

  /** The tool-call fragments a chunk carries, if it has choices. */
  function ChunkFragments(c: Chunk): seq<Fragment>
  {
    if c.choices != [] then c.choices[0].toolCalls else []
  }

  /** `process_chunk`: the new state and whether it raised
      `FunctionCallErrorException`. The chunk is kept and its usage taken
      first; a chunk without choices stops there. Otherwise the model name
      is taken if none was, the reasoning and content deltas are appended,
      and a content delta that leaves a tool-call tag in the content raises
      before the tool-call fragments are merged. */
  function Step(a: Aggregate, c: Chunk): (r: (Aggregate, bool))
    ensures r.0.raw == a.raw + [c]
    ensures r.0.usage == if c.usage.Some? then c.usage else a.usage
    ensures r.0.content == a.content + ChunkContent(c) && r.0.reasoning == a.reasoning + ChunkReasoning(c)
    ensures r.0.modelId == if !Given(a.modelId) && c.choices != [] && Given(c.model) then c.model else a.modelId
  {
    var kept := a.(raw := a.raw + [c], usage := if c.usage.Some? then c.usage else a.usage);
    if c.choices == [] then (kept, false)
    else
      var d := c.choices[0];
      var named := kept.(modelId := if !Given(kept.modelId) && Given(c.model) then c.model else kept.modelId);
      var grown := named.(reasoning := named.reasoning + Text(d.reasoning), content := named.content + Text(d.content));
      if d.content.Some? && Tripped(grown.content) then (grown, true)
      else
        var merged := MergeFragments(grown.slots, grown.order, d.toolCalls);
        (grown.(slots := merged.0, order := merged.1), false)
  }

  /** A chunk raises exactly when it has a content delta and the content,
      with that delta appended, holds a tool-call tag. */
  lemma StepRaises(a: Aggregate, c: Chunk)
    ensures var r := Step(a, c);
            r.1 <==> c.choices != [] && c.choices[0].content.Some? && Tripped(r.0.content)
  {
  }

  /** A chunk that does not raise merges its tool-call fragments into the
      slots; one that raises leaves them as they were. */
  lemma StepMerges(a: Aggregate, c: Chunk)
    ensures var r := Step(a, c);
            && (!r.1 ==> (r.0.slots, r.0.order) == MergeFragments(a.slots, a.order, ChunkFragments(c)))
            && (r.1 ==> r.0.slots == a.slots && r.0.order == a.order)
  {
  }

  /** The `async for` loop over a stream: chunks are processed in order
      until one raises. */
  function Consume(a: Aggregate, chunks: seq<Chunk>): (r: (Aggregate, bool))
    decreases |chunks|
  {
    if chunks == [] then (a, false)
    else
      var s := Step(a, chunks[0]);
      if s.1 then s else Consume(s.0, chunks[1..])
  }

  /** How many chunks the loop processes: all of them, or up to and
      including the one that raised. */
  function Handled(a: Aggregate, chunks: seq<Chunk>): (n: nat)
    ensures n <= |chunks|
    decreases |chunks|
  {
    if chunks == [] then 0
    else
      var s := Step(a, chunks[0]);
      if s.1 then 1 else 1 + Handled(s.0, chunks[1..])
  }

  /** The content deltas of a stream, concatenated in order. */
  function ContentOf(chunks: seq<Chunk>): string
    decreases |chunks|
  {
    if chunks == [] then "" else ChunkContent(chunks[0]) + ContentOf(chunks[1..])
  }

  /** The reasoning deltas of a stream, concatenated in order. */
  function ReasoningOf(chunks: seq<Chunk>): string
    decreases |chunks|
  {
    if chunks == [] then "" else ChunkReasoning(chunks[0]) + ReasoningOf(chunks[1..])
  }

  /** The tool-call fragments of a stream, in order. */
  function FragmentsOf(chunks: seq<Chunk>): seq<Fragment>
    decreases |chunks|
  {
    if chunks == [] then [] else ChunkFragments(chunks[0]) + FragmentsOf(chunks[1..])
  }

  /** The first non-empty model name among chunks with choices. */
  function FirstModel(chunks: seq<Chunk>): Option<string>
    decreases |chunks|
  {
    if chunks == [] then None
    else if chunks[0].choices != [] && Given(chunks[0].model) then chunks[0].model
    else FirstModel(chunks[1..])
  }

  // ---------------------------------------------------------------------------
  // What a stream leaves behind
  // ---------------------------------------------------------------------------

  /** The processed prefix of a stream that goes past its first chunk. */
  lemma HandledTail(chunks: seq<Chunk>, n: nat)
    requires 0 < n <= |chunks|
    ensures chunks[..n] == [chunks[0]] + chunks[1..][..n - 1]
    ensures chunks[..n][0] == chunks[0] && chunks[..n][1..] == chunks[1..][..n - 1]
  {
  }

  /** Keeping the first chunk and then a prefix of the rest keeps a prefix
      of the whole stream. */
  lemma KeptPrefix(raw: seq<Chunk>, chunks: seq<Chunk>, n: nat)
    requires 0 < n <= |chunks|
    ensures raw + [chunks[0]] + chunks[1..][..n - 1] == raw + chunks[..n]
  {
    assert chunks[..n] == [chunks[0]] + chunks[1..][..n - 1];
  }

  /** Every processed chunk is kept in order. */
  lemma {:induction false} ConsumeKeepsChunks(a: Aggregate, chunks: seq<Chunk>)
    ensures Consume(a, chunks).0.raw == a.raw + chunks[..Handled(a, chunks)]
    decreases |chunks|
  {
    if chunks == [] {
      assert chunks[..0] == [];
    } else {
      var s := Step(a, chunks[0]);
      if !s.1 {
        ConsumeKeepsChunks(s.0, chunks[1..]);
      }
      KeptPrefix(a.raw, chunks, Handled(a, chunks));
    }
  }

  /** The loop stops early only at a chunk that raised. */
  lemma {:induction false} ConsumeStopsOnlyOnRaise(a: Aggregate, chunks: seq<Chunk>)
    ensures !Consume(a, chunks).1 ==> Handled(a, chunks) == |chunks|
    decreases |chunks|
  {
    if chunks != [] && !Step(a, chunks[0]).1 {
      ConsumeStopsOnlyOnRaise(Step(a, chunks[0]).0, chunks[1..]);
    }
  }

  /** A stream raises only at a chunk with a content delta, once the
      content holds a tool-call tag. */
  lemma {:induction false} ConsumeRaisesOnTag(a: Aggregate, chunks: seq<Chunk>)
    ensures var r := Consume(a, chunks);
            var n := Handled(a, chunks);
            r.1 ==> && 0 < n && chunks[n - 1].choices != [] && chunks[n - 1].choices[0].content.Some?
                    && Tripped(r.0.content)
    decreases |chunks|
  {
    if chunks != [] {
      var s := Step(a, chunks[0]);
      if s.1 {
        StepRaises(a, chunks[0]);
      } else {
        ConsumeRaisesOnTag(s.0, chunks[1..]);
      }
    }
  }

  /** The content deltas of a processed prefix: the first chunk's, then
      those of the rest of the prefix. */
  lemma ContentOfPrefix(chunks: seq<Chunk>, n: nat)
    requires 0 < n <= |chunks|
    ensures ContentOf(chunks[..n]) == ChunkContent(chunks[0]) + ContentOf(chunks[1..][..n - 1])
  {
    assert chunks[..n][0] == chunks[0] && chunks[..n][1..] == chunks[1..][..n - 1];
  }

  /** The reasoning deltas of a processed prefix: the first chunk's, then
      those of the rest of the prefix. */
  lemma ReasoningOfPrefix(chunks: seq<Chunk>, n: nat)
    requires 0 < n <= |chunks|
    ensures ReasoningOf(chunks[..n]) == ChunkReasoning(chunks[0]) + ReasoningOf(chunks[1..][..n - 1])
  {
    assert chunks[..n][0] == chunks[0] && chunks[..n][1..] == chunks[1..][..n - 1];
  }

  /** String concatenation regrouped. */
  lemma Regroup(x: string, y: string, z: string)
    ensures x + y + z == x + (y + z)
  {
  }

  /** The content is the concatenation of the processed chunks' content
      deltas, in order. */
  lemma {:induction false} ConsumeConcatenatesContent(a: Aggregate, chunks: seq<Chunk>)
    ensures Consume(a, chunks).0.content == a.content + ContentOf(chunks[..Handled(a, chunks)])
    decreases |chunks|
  {
    if chunks == [] {
      assert chunks[..0] == [];
    } else {
      var s := Step(a, chunks[0]);
      var n := Handled(a, chunks);
      ContentOfPrefix(chunks, n);
      if !s.1 {
        ConsumeConcatenatesContent(s.0, chunks[1..]);
      } else {
        assert chunks[1..][..0] == [];
      }
      Regroup(a.content, ChunkContent(chunks[0]), ContentOf(chunks[1..][..n - 1]));
    }
  }

  /** The reasoning is the concatenation of the processed chunks'
      reasoning deltas, in order. */
  lemma {:induction false} ConsumeConcatenatesReasoning(a: Aggregate, chunks: seq<Chunk>)
    ensures Consume(a, chunks).0.reasoning == a.reasoning + ReasoningOf(chunks[..Handled(a, chunks)])
    decreases |chunks|
  {
    if chunks == [] {
      assert chunks[..0] == [];
    } else {
      var s := Step(a, chunks[0]);
      var n := Handled(a, chunks);
      ReasoningOfPrefix(chunks, n);
      if !s.1 {
        ConsumeConcatenatesReasoning(s.0, chunks[1..]);
      } else {
        assert chunks[1..][..0] == [];
      }
      Regroup(a.reasoning, ChunkReasoning(chunks[0]), ReasoningOf(chunks[1..][..n - 1]));
    }
  }

  /** Once a tool-call tag is in the content, every later chunk with a
      content delta raises: content only grows, so the trip is sticky. */
  lemma TripIsSticky(a: Aggregate, c: Chunk)
    requires Tripped(a.content) && c.choices != [] && c.choices[0].content.Some?
    ensures Step(a, c).1
  {
    StepRaises(a, c);
    if Contains(a.content, ToolCallTag) {
      ContainsAppend(a.content, ChunkContent(c), ToolCallTag);
    } else {
      ContainsAppend(a.content, ChunkContent(c), ToolCodeTag);
    }
  }

  /** The model name is taken once: a state that has one keeps it, and a
      state without one takes the first non-empty name among the processed
      chunks that have choices. */
  lemma {:induction false} ModelIdTakenOnce(a: Aggregate, chunks: seq<Chunk>)
    ensures var r := Consume(a, chunks).0;
            var n := Handled(a, chunks);
            && (Given(a.modelId) ==> r.modelId == a.modelId)
            && (!Given(a.modelId) && FirstModel(chunks[..n]).Some? ==> r.modelId == FirstModel(chunks[..n]))
            && (FirstModel(chunks[..n]).None? ==> r.modelId == a.modelId)
    decreases |chunks|
  {
    if chunks == [] {
      assert chunks[..0] == [];
    } else {
      var s := Step(a, chunks[0]);
      var n := Handled(a, chunks);
      HandledTail(chunks, n);
      if !s.1 {
        ModelIdTakenOnce(s.0, chunks[1..]);
      } else {
        assert chunks[1..][..0] == [];
      }
    }
  }

  /** Merging two runs of fragments is merging their concatenation. */
  lemma {:induction false} MergeFragmentsConcat(slots: map<int, Slot>, order: seq<int>, xs: seq<Fragment>, ys: seq<Fragment>)
    ensures var first := MergeFragments(slots, order, xs);
            MergeFragments(first.0, first.1, ys) == MergeFragments(slots, order, xs + ys)
    decreases |ys|
  {
    if ys == [] {
      assert xs + ys == xs;
    } else {
      assert (xs + ys)[..|xs + ys| - 1] == xs + ys[..|ys| - 1];
      assert (xs + ys)[|xs + ys| - 1] == ys[|ys| - 1];
      MergeFragmentsConcat(slots, order, xs, ys[..|ys| - 1]);
    }
  }

  /** A stream that did not raise leaves every fragment of its chunks
      merged, in order. */
  lemma {:induction false} ConsumeMergesFragments(a: Aggregate, chunks: seq<Chunk>)
    requires !Consume(a, chunks).1
    ensures var r := Consume(a, chunks).0;
            (r.slots, r.order) == MergeFragments(a.slots, a.order, FragmentsOf(chunks))
    decreases |chunks|
  {
    if chunks != [] {
      var s := Step(a, chunks[0]);
      StepMerges(a, chunks[0]);
      ConsumeMergesFragments(s.0, chunks[1..]);
      MergeFragmentsConcat(a.slots, a.order, ChunkFragments(chunks[0]), FragmentsOf(chunks[1..]));
    }
  }

  // ---------------------------------------------------------------------------
  // Tool-call slots
  // ---------------------------------------------------------------------------

  /** The name fragments of index `k`, concatenated in order. */
  function NamesFor(fs: seq<Fragment>, k: int): string
    decreases |fs|
  {
    if fs == [] then ""
    else NamesFor(fs[..|fs| - 1], k) + (if SlotIndex(fs[|fs| - 1]) == k then Text(fs[|fs| - 1].name) else "")
  }

  /** The argument fragments of index `k`, concatenated in order. */
  function ArgumentsFor(fs: seq<Fragment>, k: int): string
    decreases |fs|
  {
    if fs == [] then ""
    else ArgumentsFor(fs[..|fs| - 1], k) + (if SlotIndex(fs[|fs| - 1]) == k then Text(fs[|fs| - 1].arguments) else "")
  }

  /** The last non-empty id among the fragments of index `k`. */
  function LastId(fs: seq<Fragment>, k: int): Option<string>
    decreases |fs|
  {
    if fs == [] then None
    else if SlotIndex(fs[|fs| - 1]) == k && Given(fs[|fs| - 1].id) then fs[|fs| - 1].id
    else LastId(fs[..|fs| - 1], k)
  }

  /** Merging from no slots, index by index: the slot of an index that
      occurs holds the concatenated names and arguments of its fragments
      and the last non-empty id; an index that does not occur has no
      fragments to show. */
  lemma {:induction false} MergedSlot(fs: seq<Fragment>, k: int)
    ensures var r := MergeFragments(map[], [], fs).0;
            && (k in r ==> r[k] == Slot(LastId(fs, k), NamesFor(fs, k), ArgumentsFor(fs, k)))
            && (k !in r ==> LastId(fs, k) == None && NamesFor(fs, k) == "" && ArgumentsFor(fs, k) == "")
    decreases |fs|
  {
    if fs != [] {
      MergedSlot(fs[..|fs| - 1], k);
    }
  }

  /** Merging from no slots: one slot per index that occurs, each listed
      once in the order of first appearance, holding exactly what its
      fragments carried. */
  lemma MergedSlots(fs: seq<Fragment>)
    ensures var r := MergeFragments(map[], [], fs);
            && WellOrdered(r.0, r.1)
            && (forall k :: k in r.0 <==> exists i :: 0 <= i < |fs| && SlotIndex(fs[i]) == k)
            && (forall k :: k in r.0 ==> r.0[k] == Slot(LastId(fs, k), NamesFor(fs, k), ArgumentsFor(fs, k)))
  {
    var r := MergeFragments(map[], [], fs);
    MergeFragmentsOrdered(map[], [], fs);
    MergeFragmentsKeys(map[], [], fs);
    forall k | k in r.0
      ensures r.0[k] == Slot(LastId(fs, k), NamesFor(fs, k), ArgumentsFor(fs, k))
    {
      MergedSlot(fs, k);
    }
    forall k
      ensures k in r.0 <==> exists i :: 0 <= i < |fs| && SlotIndex(fs[i]) == k
    {
      if k in r.0 {
        assert k in Indices(fs);
      }
    }
  }

  // ---------------------------------------------------------------------------
  // The aggregated response
  // ---------------------------------------------------------------------------

  /** The result of `get_aggregated_response`. */
  datatype Response = Response(reasoning: string, content: string, toolCalls: seq<Slot>,
                               modelId: Option<string>, usage: Option<map<string, int>>)

  /** `json_repair.repair_json` applied to the arguments of a tool call;
      when the repair raises, the arguments are kept as they were. */
  function Repaired(slot: Slot, repair: string -> Outcome<string>): (r: Slot)
    ensures r.id == slot.id && r.name == slot.name
    ensures r.arguments == (if repair(slot.arguments).Ok? then repair(slot.arguments).value else slot.arguments)
  {
    match repair(slot.arguments)
    case Ok(fixed) => slot.(arguments := fixed)
    case Raised => slot
  }

  /** `get_aggregated_response`: one tool call per slot, in the order their
      indices first appeared, with repaired arguments. */
  function Aggregated(a: Aggregate, repair: string -> Outcome<string>): (r: Response)
    requires WellOrdered(a.slots, a.order)
    ensures |r.toolCalls| == |a.order| == |a.slots.Keys|
    ensures forall i :: 0 <= i < |a.order| ==> r.toolCalls[i] == Repaired(a.slots[a.order[i]], repair)
    ensures r.content == a.content && r.reasoning == a.reasoning && r.modelId == a.modelId && r.usage == a.usage
  {
    OrderCoversKeys(a.slots.Keys, a.order);
    Response(a.reasoning, a.content,
             seq(|a.order|, i requires 0 <= i < |a.order| && WellOrdered(a.slots, a.order) => Repaired(a.slots[a.order[i]], repair)),
             a.modelId, a.usage)
  }

  /** An order listing each key once is as long as there are keys. */
  lemma {:induction false} OrderCoversKeys(keys: set<int>, order: seq<int>)
    requires forall k :: k in keys <==> k in order
    requires forall i, j :: 0 <= i < j < |order| ==> order[i] != order[j]
    ensures |order| == |keys|
    decreases |order|
  {
    if order == [] {
      assert forall k :: k !in keys;
    } else {
      var k := order[|order| - 1];
      var init := order[..|order| - 1];
      var rest := keys - {k};
      forall j
        ensures j in rest <==> j in init
      {
        if j in rest {
          var i :| 0 <= i < |order| && order[i] == j;
          assert i < |order| - 1;
          assert init[i] == j;
        }
        if j in init {
          var i :| 0 <= i < |init| && init[i] == j;
          assert order[i] == j;
        }
      }
      OrderCoversKeys(rest, init);
      assert keys == rest + {k};
      assert |keys| == |rest| + 1;
    }
  }

  /** The indices of the fragments in the order they first appear. */
  function FirstSeen(fs: seq<Fragment>): (r: seq<int>)
    decreases |fs|
  {
    if fs == [] then []
    else
      var init := FirstSeen(fs[..|fs| - 1]);
      if SlotIndex(fs[|fs| - 1]) in init then init else init + [SlotIndex(fs[|fs| - 1])]
  }

  /** Merging from no slots orders the slots by first appearance. */
  lemma {:induction false} MergedOrder(fs: seq<Fragment>)
    ensures MergeFragments(map[], [], fs).1 == FirstSeen(fs)
    decreases |fs|
  {
    if fs != [] {
      MergedOrder(fs[..|fs| - 1]);
      MergeFragmentsOrdered(map[], [], fs[..|fs| - 1]);
    }
  }

  /** The slots stay well ordered over a whole stream. */
  lemma {:induction false} ConsumeOrdered(a: Aggregate, chunks: seq<Chunk>)
    requires WellOrdered(a.slots, a.order)
    ensures var r := Consume(a, chunks).0;
            WellOrdered(r.slots, r.order)
    decreases |chunks|
  {
    if chunks != [] {
      var s := Step(a, chunks[0]);
      StepMerges(a, chunks[0]);
      MergeFragmentsOrdered(a.slots, a.order, ChunkFragments(chunks[0]));
      if !s.1 {
        ConsumeOrdered(s.0, chunks[1..]);
      }
    }
  }

  /** What a whole stream that did not raise aggregates to from a fresh
      aggregator: all content and reasoning deltas in order, the first
      model name, and one tool call per index in order of first
      appearance, holding its concatenated name and repaired arguments and
      its last non-empty id. */
  lemma StreamResponse(chunks: seq<Chunk>, repair: string -> Outcome<string>)
    requires !Consume(Fresh, chunks).1
    ensures var a := Consume(Fresh, chunks).0;
            var fs := FragmentsOf(chunks);
            && WellOrdered(a.slots, a.order)
            && var r := Aggregated(a, repair);
               && r.content == ContentOf(chunks) && r.reasoning == ReasoningOf(chunks)
               && r.modelId == FirstModel(chunks)
               && |r.toolCalls| == |FirstSeen(fs)|
               && forall i :: 0 <= i < |r.toolCalls| ==>
                    r.toolCalls[i] == Repaired(Slot(LastId(fs, FirstSeen(fs)[i]), NamesFor(fs, FirstSeen(fs)[i]), ArgumentsFor(fs, FirstSeen(fs)[i])), repair)
  {
    var a := Consume(Fresh, chunks).0;
    var fs := FragmentsOf(chunks);
    ConsumeOrdered(Fresh, chunks);
    ConsumeStopsOnlyOnRaise(Fresh, chunks);
    assert chunks[..Handled(Fresh, chunks)] == chunks;
    ConsumeConcatenatesContent(Fresh, chunks);
    ConsumeConcatenatesReasoning(Fresh, chunks);
    ModelIdTakenOnce(Fresh, chunks);
    ConsumeMergesFragments(Fresh, chunks);
    MergedOrder(fs);
    MergedSlots(fs);
  }

  // ---------------------------------------------------------------------------
  // The aggregator object
  // ---------------------------------------------------------------------------

  /** `LLMResponseAggregator`, with the identifiers it only forwards to
      events left out. */
  class ResponseAggregator {
    const associatedTaskNums: Option<seq<int>>
    const moduleId: Option<string>
    const dispatchId: Option<string>
    var fullContent: string
    var fullReasoning: string
    var toolCallChunks: map<int, Slot>
    var toolCallOrder: seq<int>
    var rawChunks: seq<Chunk>
    var modelIdUsed: Option<string>
    var actualUsage: Option<map<string, int>>

    /** The object's state as a value. */
    function State(): Aggregate
      reads this
    {
      Aggregate(fullContent, fullReasoning, toolCallChunks, toolCallOrder, rawChunks, modelIdUsed, actualUsage)
    }

    ghost predicate Valid()
      reads this
    {
      WellOrdered(toolCallChunks, toolCallOrder)
    }

    constructor(associatedTaskNums: Option<seq<int>>, moduleId: Option<string>, dispatchId: Option<string>)
      ensures State() == Fresh && Valid()
      ensures this.associatedTaskNums == associatedTaskNums && this.moduleId == moduleId && this.dispatchId == dispatchId
    {
      this.associatedTaskNums := associatedTaskNums;
      this.moduleId := moduleId;
      this.dispatchId := dispatchId;
      fullContent := "";
      fullReasoning := "";
      toolCallChunks := map[];
      toolCallOrder := [];
      rawChunks := [];
      modelIdUsed := None;
      actualUsage := None;
    }

    /** `_get_contextual_data_for_event`: the associated task numbers when present,
        the module and dispatch ids when non-empty, or `None` when none of
        them is set. */
    function ContextualData(): (r: Option<seq<(string, Json)>>)
      reads this
      ensures r.None? <==> associatedTaskNums.None? && !Given(moduleId) && !Given(dispatchId)
      ensures r.Some? ==>
                && Lookup(r.value, "associated_task_nums") == (if associatedTaskNums.Some? then Some(JArr(Ints(associatedTaskNums.value))) else None)
                && Lookup(r.value, "module_id") == (if Given(moduleId) then Some(JStr(moduleId.value)) else None)
                && Lookup(r.value, "dispatch_id") == (if Given(dispatchId) then Some(JStr(dispatchId.value)) else None)
      ensures r.Some? ==> forall k :: Lookup(r.value, k).Some? ==> k in ContextKeys
    {
      var empty: seq<(string, Json)> := [];
      var tasks := PutIf(empty, associatedTaskNums.Some?, "associated_task_nums", JArr(Ints(associatedTaskNums.GetOr([]))));
      var withModule := PutIf(tasks, Given(moduleId), "module_id", JStr(moduleId.GetOr("")));
      var data := PutIf(withModule, Given(dispatchId), "dispatch_id", JStr(dispatchId.GetOr("")));
      PutIfWithin(empty, associatedTaskNums.Some?, "associated_task_nums", JArr(Ints(associatedTaskNums.GetOr([]))), ContextKeys);
      PutIfWithin(tasks, Given(moduleId), "module_id", JStr(moduleId.GetOr("")), ContextKeys);
      PutIfWithin(withModule, Given(dispatchId), "dispatch_id", JStr(dispatchId.GetOr("")), ContextKeys);
      if data == [] then None else Some(data)
    }

    /** `process_chunk`; `raised` says whether it raised
        `FunctionCallErrorException`. */
    method ProcessChunk(c: Chunk) returns (raised: bool)
      requires Valid()
      modifies this
      ensures Valid()
      ensures (State(), raised) == Step(old(State()), c)
    {
      rawChunks := rawChunks + [c];
      if c.usage.Some? {
        actualUsage := c.usage;
      }
      if c.choices == [] {
        return false;
      }
      if !Given(modelIdUsed) && Given(c.model) {
        modelIdUsed := c.model;
      }
      var d := c.choices[0];
      if d.reasoning.Some? {
        fullReasoning := fullReasoning + d.reasoning.value;
      } else {
        assert fullReasoning + Text(d.reasoning) == fullReasoning;
      }
      if d.content.Some? {
        fullContent := fullContent + d.content.value;
        if Contains(fullContent, ToolCallTag) || Contains(fullContent, ToolCodeTag) {
          return true;
        }
      } else {
        assert fullContent + Text(d.content) == fullContent;
      }
      MergeToolCalls(d.toolCalls);
      raised := false;
    }

    /** The loop over a delta's tool-call fragments. */
    method MergeToolCalls(fs: seq<Fragment>)
      requires Valid()
      modifies this
      ensures Valid()
      ensures (toolCallChunks, toolCallOrder) == MergeFragments(old(toolCallChunks), old(toolCallOrder), fs)
      ensures fullContent == old(fullContent) && fullReasoning == old(fullReasoning) && rawChunks == old(rawChunks)
      ensures modelIdUsed == old(modelIdUsed) && actualUsage == old(actualUsage)
    {
      for i := 0 to |fs|
        invariant Valid()
        invariant (toolCallChunks, toolCallOrder) == MergeFragments(old(toolCallChunks), old(toolCallOrder), fs[..i])
        invariant fullContent == old(fullContent) && fullReasoning == old(fullReasoning) && rawChunks == old(rawChunks)
        invariant modelIdUsed == old(modelIdUsed) && actualUsage == old(actualUsage)
      {
        MergeFragmentsStep(old(toolCallChunks), old(toolCallOrder), fs, i);
        MergeFragmentOrdered(toolCallChunks, toolCallOrder, fs[i]);
        var f := fs[i];
        var k := SlotIndex(f);
        var slot := EmptySlot;
        if k in toolCallChunks {
          slot := toolCallChunks[k];
        } else {
          toolCallOrder := toolCallOrder + [k];
        }
        toolCallChunks := toolCallChunks[k := MergeSlot(slot, f)];
      }
      assert fs[..|fs|] == fs;
    }

    /** `async for chunk in stream: await process_chunk(chunk)`. */
    method ConsumeStream(chunks: seq<Chunk>) returns (raised: bool)
      requires Valid()
      modifies this
      ensures Valid()
      ensures (State(), raised) == Consume(old(State()), chunks)
    {
      for i := 0 to |chunks|
        invariant Valid()
        invariant Consume(old(State()), chunks) == Consume(State(), chunks[i..])
      {
        assert chunks[i..][0] == chunks[i] && chunks[i..][1..] == chunks[i + 1..];
        raised := ProcessChunk(chunks[i]);
        if raised {
          return;
        }
      }
      raised := false;
    }

    /** `get_aggregated_response`. */
    method AggregatedResponse(repair: string -> Outcome<string>) returns (r: Response)
      requires Valid()
      ensures r == Aggregated(State(), repair)
    {
      var calls: seq<Slot> := [];
      for i := 0 to |toolCallOrder|
        invariant |calls| == i
        invariant forall j :: 0 <= j < i ==> calls[j] == Repaired(toolCallChunks[toolCallOrder[j]], repair)
      {
        var slot := toolCallChunks[toolCallOrder[i]];
        var fixed := Repaired(slot, repair);
        calls := calls + [fixed];
      }
      r := Response(fullReasoning, fullContent, calls, modelIdUsed, actualUsage);
    }
  }

  /** `if cond: d[k] = v`. */
  function PutIf(es: seq<(string, Json)>, cond: bool, k: string, v: Json): (r: seq<(string, Json)>)
    ensures Lookup(r, k) == if cond then Some(v) else Lookup(es, k)
    ensures forall k' :: k' != k ==> Lookup(r, k') == Lookup(es, k')
    ensures cond ==> r != []
    ensures !cond ==> r == es
  {
    if cond then Put(es, k, v) else es
  }

  /** The keys `_get_contextual_data_for_event` may set. */
  const ContextKeys: set<string> := {"associated_task_nums", "module_id", "dispatch_id"}

  /** Assigning one of the allowed keys keeps every key within them. */
  lemma PutIfWithin(es: seq<(string, Json)>, cond: bool, k: string, v: Json, allowed: set<string>)
    requires forall k' :: Lookup(es, k').Some? ==> k' in allowed
    requires k in allowed
    ensures forall k' :: Lookup(PutIf(es, cond, k, v), k').Some? ==> k' in allowed
  {
  }

  /** A list of integers as JSON items. */
  function Ints(xs: seq<int>): (r: seq<Json>)
    ensures |r| == |xs| && forall i :: 0 <= i < |xs| ==> r[i] == JInt(xs[i])
  {
    seq(|xs|, i requires 0 <= i < |xs| => JInt(xs[i]))
  }
}
