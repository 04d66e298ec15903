/** `_recursive_markdown_formatter`: a Python value rendered as indented
    Markdown lines. An object schema with properties decides which keys of a
    dictionary are shown, in the schema's order and under the schema's
    titles; without one, dictionaries show every key in sorted order, lists
    show their items at the same level, strings show one line per line of
    their stripped text, and other values show their `str`. */
module Markdown {
  import opened Outcomes
  import opened PyText
  import opened Json
  import opened Seqs
  import Sorting

  /** `"  " * level`: two spaces per level. */
  function Indent(level: nat): (r: string)
    ensures |r| == 2 * level
    ensures forall i :: 0 <= i < |r| ==> r[i] == ' '
  {
    if level == 0 then "" else "  " + Indent(level - 1)
  }

  /** The indent of the next level extends the indent of this one. */
  lemma IndentExtends(level: nat)
    ensures StartsWith(Indent(level + 1), Indent(level))
  {
    assert Indent(level + 1)[..2 * level] == Indent(level);
  }

  /** A heading line, `{indent}* **{title}:**`. */
  function Heading(indent: string, title: string): string
  {
    indent + "* **" + title + ":**"
  }

  lemma HeadingIndented(indent: string, title: string)
    ensures StartsWith(Heading(indent, title), indent)
  {
    assert Heading(indent, title)[..|indent|] == indent;
  }

  /** A value line, `{indent}  {text}`. */
  function ValueLine(indent: string, text: string): string
  {
    indent + "  " + text
  }

  lemma ValueLineIndented(indent: string, text: string)
    ensures StartsWith(ValueLine(indent, text), indent)
  {
    assert ValueLine(indent, text)[..|indent|] == indent;
  }

  /** `key.replace('_', ' ').title()`. */
  function DisplayName(key: string): string
  {
    Title(ReplaceAll(key, "_", " "))
  }

  /** Whether rendering follows the schema: it says `"type": "object"`, it
      has `properties`, and the value is a dictionary. */
  predicate FollowsSchema(schema: seq<(string, Json)>, data: Json)
  {
    Lookup(schema, "type") == Some(JStr("object")) && Lookup(schema, "properties").Some? && data.JObj?
  }

  /** The lines of a string: a value line per line of its stripped text. */
  function TextLines(indent: string, s: string): seq<string>
  {
    ValueLines(indent, Split(Strip(s), '\n'))
  }

  /** A value line per part. */
  function ValueLines(indent: string, parts: seq<string>): seq<string>
  {
    seq(|parts|, i requires 0 <= i < |parts| => ValueLine(indent, parts[i]))
  }

  /** `_recursive_markdown_formatter(data, schema, level)`. A schema that is
      not a dictionary cannot answer `.get` and raises, and so do
      properties that are not a dictionary. */
  function Format(data: Json, schema: Json, level: nat): (r: Outcome<seq<string>>)
    decreases data, 2
  {
    if !schema.JObj? then Raised
    else if FollowsSchema(schema.entries, data) then
      var props :- AsObject(Field(schema.entries, "properties", Empty));
      ConcatAll(PropertyBlocks(props, data, level))
    else
      match data
      case JObj(es) =>
        if es == [] then Ok([ValueLine(Indent(level), "(empty)")])
        else ConcatAll(EntryBlocks(Sorting.SortByKey(es), data, level))
      case JArr(xs) =>
        if xs == [] then Ok([ValueLine(Indent(level), "(empty)")])
        else ConcatAll(ItemBlocks(data, Field(schema.entries, "items", Empty), level))
      case JStr(s) => Ok(TextLines(Indent(level), s))
      case _ => Ok([ValueLine(Indent(level), PyStr(data))])
  }

  /** The blocks of the properties of an object schema, in the schema's
      order. */
  function PropertyBlocks(props: seq<(string, Json)>, data: Json, level: nat): seq<Outcome<seq<string>>>
    requires data.JObj?
    decreases data, 1
  {
    seq(|props|, i requires 0 <= i < |props| => PropertyBlock(props[i].0, props[i].1, data, level))
  }

  /** One property of an object schema: nothing when the dictionary lacks
      it; otherwise a heading with the property schema's `x-handover-title`,
      or else the property's display name, followed by the value one level
      deeper under the property schema. A property schema that is not a
      dictionary raises. */
  function PropertyBlock(name: string, propSchema: Json, data: Json, level: nat): (r: Outcome<seq<string>>)
    requires data.JObj?
    ensures FindKey(data.entries, name).None? ==> r == Ok([])
    ensures FindKey(data.entries, name).Some? && r.Ok? ==>
              propSchema.JObj? && r.value != [] &&
              r.value[0] == Heading(Indent(level), PyStr(Field(propSchema.entries, "x-handover-title",
                                                                JStr(DisplayName(name)))))
    decreases data, 0
  {
    match FindKey(data.entries, name)
    case None => Ok([])
    case Some(j) =>
      var title :- Get(propSchema, "x-handover-title", JStr(DisplayName(name)));
      var sub :- Format(data.entries[j].1, propSchema, level + 1);
      Ok([Heading(Indent(level), PyStr(title))] + sub)
  }

  /** The blocks of a dictionary's entries in the order given, which is a
      rearrangement of its own. */
  function EntryBlocks(sorted: seq<(string, Json)>, data: Json, level: nat): seq<Outcome<seq<string>>>
    requires data.JObj? && multiset(sorted) == multiset(data.entries)
    decreases data, 1
  {
    seq(|sorted|, i requires 0 <= i < |sorted| =>
      assert sorted[i] in multiset(data.entries);
      EntryBlock(sorted[i].0, sorted[i].1, level))
  }

  /** One entry of a dictionary rendered without a schema: a heading with
      the key's display name, then the value one level deeper. */
  function EntryBlock(key: string, value: Json, level: nat): Outcome<seq<string>>
    decreases value, 3
  {
    var sub :- Format(value, Empty, level + 1);
    Ok([Heading(Indent(level), DisplayName(key))] + sub)
  }

  /** The blocks of a list's items, each at the list's own level under the
      schema's `items`. */
  function ItemBlocks(data: Json, itemSchema: Json, level: nat): seq<Outcome<seq<string>>>
    requires data.JArr?
    decreases data, 1
  {
    seq(|data.items|, i requires 0 <= i < |data.items| => Format(data.items[i], itemSchema, level))
  }

  /** The lines of a value rendered without a schema, which never raises
      (`_recursive_markdown_formatter(data, {}, level)`). */
  function PlainLines(data: Json, level: nat): (r: seq<string>)
    ensures Format(data, Empty, level) == Ok(r)
  {
    FormatPlainOk(data, level);
    Format(data, Empty, level).value
  }

  // ---------------------------------------------------------------------------
  // The formatter with its loops
  // ---------------------------------------------------------------------------

  /** The formatter as the source writes it: `lines.append` and
      `lines.extend` over the properties, the sorted entries or the items. */
  method FormatLines(data: Json, schema: Json, level: nat) returns (r: Outcome<seq<string>>)
    ensures r == Format(data, schema, level)
    decreases data, 3
  {
    if !schema.JObj? {
      return Raised;
    }
    if FollowsSchema(schema.entries, data) {
      var props := AsObject(Field(schema.entries, "properties", Empty));
      if props.Raised? {
        return Raised;
      }
      r := FormatProperties(props.value, data, level);
      return;
    }
    r := FormatFallback(data, schema, level);
  }

  /** The formatter without an object schema. */
  method FormatFallback(data: Json, schema: Json, level: nat) returns (r: Outcome<seq<string>>)
    requires schema.JObj? && !FollowsSchema(schema.entries, data)
    ensures r == Format(data, schema, level)
    decreases data, 2
  {
    var indent := Indent(level);
    match data {
      case JObj(es) =>
        if es == [] {
          return Ok([ValueLine(indent, "(empty)")]);
        }
        r := FormatEntries(Sorting.SortByKey(es), data, level);
      case JArr(xs) =>
        if xs == [] {
          return Ok([ValueLine(indent, "(empty)")]);
        }
        r := FormatItems(data, Field(schema.entries, "items", Empty), level);
      case JStr(s) =>
        var lines := FormatText(indent, Split(Strip(s), '\n'));
        r := Ok(lines);
      case _ =>
        r := Ok([ValueLine(indent, PyStr(data))]);
    }
  }

  /** The loop over the lines of a stripped string. */
  method FormatText(indent: string, parts: seq<string>) returns (lines: seq<string>)
    ensures lines == ValueLines(indent, parts)
  {
    lines := [];
    for i := 0 to |parts|
      invariant |lines| == i
      invariant forall k :: 0 <= k < i ==> lines[k] == ValueLine(indent, parts[k])
    {
      lines := lines + [ValueLine(indent, parts[i])];
    }
  }

  /** The loop over the properties of an object schema. */
  method FormatProperties(props: seq<(string, Json)>, data: Json, level: nat) returns (r: Outcome<seq<string>>)
    requires data.JObj?
    ensures r == ConcatAll(PropertyBlocks(props, data, level))
    decreases data, 1
  {
    var blocks := PropertyBlocks(props, data, level);
    var lines := [];
    for i := 0 to |props|
      invariant ConcatAll(blocks[..i]) == Ok(lines)
    {
      var block := RenderProperty(props[i].0, props[i].1, data, level);
      assert blocks[i] == block;
      assert blocks[..i + 1] == blocks[..i] + [block];
      if block.Raised? {
        ConcatAllRaised(blocks, i);
        return Raised;
      }
      ConcatAllSnoc(blocks[..i], block);
      lines := lines + block.value;
    }
    assert blocks[..|props|] == blocks;
    r := Ok(lines);
  }

  /** One property: the membership test, the title lookup and the
      recursive call. */
  method RenderProperty(name: string, propSchema: Json, data: Json, level: nat) returns (r: Outcome<seq<string>>)
    requires data.JObj?
    ensures r == PropertyBlock(name, propSchema, data, level)
    decreases data, 0
  {
    var j := FindKey(data.entries, name);
    if j.None? {
      return Ok([]);
    }
    var title := Get(propSchema, "x-handover-title", JStr(DisplayName(name)));
    if title.Raised? {
      return Raised;
    }
    var sub := FormatLines(data.entries[j.value].1, propSchema, level + 1);
    if sub.Raised? {
      return Raised;
    }
    r := Ok([Heading(Indent(level), PyStr(title.value))] + sub.value);
  }

  /** The loop over a dictionary's sorted entries. */
  method FormatEntries(sorted: seq<(string, Json)>, data: Json, level: nat) returns (r: Outcome<seq<string>>)
    requires data.JObj? && multiset(sorted) == multiset(data.entries)
    ensures r == ConcatAll(EntryBlocks(sorted, data, level))
    decreases data, 1
  {
    var blocks := EntryBlocks(sorted, data, level);
    var lines := [];
    for i := 0 to |sorted|
      invariant ConcatAll(blocks[..i]) == Ok(lines)
    {
      assert sorted[i] in multiset(data.entries);
      var block := RenderEntry(sorted[i].0, sorted[i].1, level);
      assert blocks[i] == block;
      assert blocks[..i + 1] == blocks[..i] + [block];
      if block.Raised? {
        ConcatAllRaised(blocks, i);
        return Raised;
      }
      ConcatAllSnoc(blocks[..i], block);
      lines := lines + block.value;
    }
    assert blocks[..|sorted|] == blocks;
    r := Ok(lines);
  }

  /** One entry without a schema. */
  method RenderEntry(key: string, value: Json, level: nat) returns (r: Outcome<seq<string>>)
    ensures r == EntryBlock(key, value, level)
    decreases value, 4
  {
    var sub := FormatLines(value, Empty, level + 1);
    if sub.Raised? {
      return Raised;
    }
    r := Ok([Heading(Indent(level), DisplayName(key))] + sub.value);
  }

  /** The loop over a list's items. */
  method FormatItems(data: Json, itemSchema: Json, level: nat) returns (r: Outcome<seq<string>>)
    requires data.JArr?
    ensures r == ConcatAll(ItemBlocks(data, itemSchema, level))
    decreases data, 1
  {
    var blocks := ItemBlocks(data, itemSchema, level);
    var lines := [];
    for i := 0 to |data.items|
      invariant ConcatAll(blocks[..i]) == Ok(lines)
    {
      var block := FormatLines(data.items[i], itemSchema, level);
      assert blocks[..i + 1] == blocks[..i] + [block];
      if block.Raised? {
        ConcatAllRaised(blocks, i);
        return Raised;
      }
      ConcatAllSnoc(blocks[..i], block);
      lines := lines + block.value;
    }
    assert blocks[..|data.items|] == blocks;
    r := Ok(lines);
  }

  // ---------------------------------------------------------------------------
  // Properties
  // ---------------------------------------------------------------------------

  /** Without a schema nothing raises: every value can be rendered. */
  lemma {:induction false} FormatPlainOk(data: Json, level: nat)
    ensures Format(data, Empty, level).Ok?
    decreases data, 1
  {
    assert !FollowsSchema(Empty.entries, data);
    if data.JObj? && data.entries != [] {
      EntryBlocksOk(Sorting.SortByKey(data.entries), data, level);
    } else if data.JArr? && data.items != [] {
      ItemBlocksOk(data, level);
    }
  }

  lemma {:induction false} EntryBlocksOk(sorted: seq<(string, Json)>, data: Json, level: nat)
    requires data.JObj? && multiset(sorted) == multiset(data.entries)
    ensures ConcatAll(EntryBlocks(sorted, data, level)).Ok?
    decreases data, 0
  {
    var blocks := EntryBlocks(sorted, data, level);
    forall i | 0 <= i < |blocks|
      ensures blocks[i].Ok?
    {
      assert sorted[i] in multiset(data.entries);
      assert blocks[i] == EntryBlock(sorted[i].0, sorted[i].1, level);
      FormatPlainOk(sorted[i].1, level + 1);
    }
  }

  lemma {:induction false} ItemBlocksOk(data: Json, level: nat)
    requires data.JArr?
    ensures ConcatAll(ItemBlocks(data, Empty, level)).Ok?
    decreases data, 0
  {
    var blocks := ItemBlocks(data, Empty, level);
    forall i | 0 <= i < |blocks|
      ensures blocks[i].Ok?
    {
      assert blocks[i] == Format(data.items[i], Empty, level);
      FormatPlainOk(data.items[i], level);
    }
  }

  /** Every line starts with the indent of the level it is rendered at:
      nested values are indented further, list items are not. */
  lemma {:induction false} FormatIndented(data: Json, schema: Json, level: nat, line: string)
    requires Format(data, schema, level).Ok? && line in Format(data, schema, level).value
    ensures StartsWith(line, Indent(level))
    decreases data, 2
  {
    if FollowsSchema(schema.entries, data) {
      var props := Field(schema.entries, "properties", Empty).entries;
      PropertyLinesIndented(props, data, level, line);
    } else if data.JObj? && data.entries != [] {
      EntryLinesIndented(Sorting.SortByKey(data.entries), data, level, line);
    } else if data.JArr? && data.items != [] {
      ItemLinesIndented(data, Field(schema.entries, "items", Empty), level, line);
    } else {
      LeafIndented(data, schema, level, line);
    }
  }

  /** The lines of a value that is neither a non-empty container nor shown
      through an object schema. */
  lemma LeafIndented(data: Json, schema: Json, level: nat, line: string)
    requires schema.JObj? && !FollowsSchema(schema.entries, data)
    requires !(data.JObj? && data.entries != []) && !(data.JArr? && data.items != [])
    requires Format(data, schema, level).Ok? && line in Format(data, schema, level).value
    ensures StartsWith(line, Indent(level))
  {
    if data.JStr? {
      assert Format(data, schema, level) == Ok(TextLines(Indent(level), data.s));
      var parts := Split(Strip(data.s), '\n');
      var k :| 0 <= k < |parts| && line == ValueLine(Indent(level), parts[k]);
      ValueLineIndented(Indent(level), parts[k]);
    } else {
      var text := if data.JObj? || data.JArr? then "(empty)" else PyStr(data);
      assert Format(data, schema, level) == Ok([ValueLine(Indent(level), text)]);
      ValueLineIndented(Indent(level), text);
    }
  }

  lemma {:induction false} PropertyLinesIndented(props: seq<(string, Json)>, data: Json, level: nat, line: string)
    requires data.JObj?
    requires ConcatAll(PropertyBlocks(props, data, level)).Ok?
    requires line in ConcatAll(PropertyBlocks(props, data, level)).value
    ensures StartsWith(line, Indent(level))
    decreases data, 1
  {
    var blocks := PropertyBlocks(props, data, level);
    ConcatAllMembers(blocks, line);
    var i :| 0 <= i < |blocks| && line in blocks[i].value;
    assert blocks[i] == PropertyBlock(props[i].0, props[i].1, data, level);
    PropertyBlockIndented(props[i].0, props[i].1, data, level, line);
  }

  lemma {:induction false} PropertyBlockIndented(name: string, propSchema: Json, data: Json, level: nat, line: string)
    requires data.JObj?
    requires PropertyBlock(name, propSchema, data, level).Ok?
    requires line in PropertyBlock(name, propSchema, data, level).value
    ensures StartsWith(line, Indent(level))
    decreases data, 0
  {
    var j := FindKey(data.entries, name).value;
    var title := Get(propSchema, "x-handover-title", JStr(DisplayName(name))).value;
    var sub := Format(data.entries[j].1, propSchema, level + 1);
    var heading := Heading(Indent(level), PyStr(title));
    assert PropertyBlock(name, propSchema, data, level).value == [heading] + sub.value;
    if line == heading {
      HeadingIndented(Indent(level), PyStr(title));
    } else {
      FormatIndented(data.entries[j].1, propSchema, level + 1, line);
      IndentExtends(level);
    }
  }

  lemma {:induction false} EntryLinesIndented(sorted: seq<(string, Json)>, data: Json, level: nat, line: string)
    requires data.JObj? && multiset(sorted) == multiset(data.entries)
    requires ConcatAll(EntryBlocks(sorted, data, level)).Ok?
    requires line in ConcatAll(EntryBlocks(sorted, data, level)).value
    ensures StartsWith(line, Indent(level))
    decreases data, 0
  {
    var blocks := EntryBlocks(sorted, data, level);
    ConcatAllMembers(blocks, line);
    var i :| 0 <= i < |blocks| && line in blocks[i].value;
    assert sorted[i] in multiset(data.entries);
    assert blocks[i] == EntryBlock(sorted[i].0, sorted[i].1, level);
    EntryBlockIndented(sorted[i].0, sorted[i].1, level, line);
  }

  lemma {:induction false} EntryBlockIndented(key: string, value: Json, level: nat, line: string)
    requires EntryBlock(key, value, level).Ok? && line in EntryBlock(key, value, level).value
    ensures StartsWith(line, Indent(level))
    decreases value, 3
  {
    var sub := Format(value, Empty, level + 1);
    var heading := Heading(Indent(level), DisplayName(key));
    assert EntryBlock(key, value, level).value == [heading] + sub.value;
    if line == heading {
      HeadingIndented(Indent(level), DisplayName(key));
    } else {
      FormatIndented(value, Empty, level + 1, line);
      IndentExtends(level);
    }
  }

  lemma {:induction false} ItemLinesIndented(data: Json, itemSchema: Json, level: nat, line: string)
    requires data.JArr?
    requires ConcatAll(ItemBlocks(data, itemSchema, level)).Ok?
    requires line in ConcatAll(ItemBlocks(data, itemSchema, level)).value
    ensures StartsWith(line, Indent(level))
    decreases data, 0
  {
    var blocks := ItemBlocks(data, itemSchema, level);
    ConcatAllMembers(blocks, line);
    var i :| 0 <= i < |blocks| && line in blocks[i].value;
    assert blocks[i] == Format(data.items[i], itemSchema, level);
    FormatIndented(data.items[i], itemSchema, level, line);
  }

  /** An empty dictionary or list shown without an object schema is a
      single `(empty)` line. */
  lemma FormatEmptyContainer(data: Json, schema: Json, level: nat)
    requires schema.JObj? && !FollowsSchema(schema.entries, data)
    requires data == JObj([]) || data == JArr([])
    ensures Format(data, schema, level) == Ok([ValueLine(Indent(level), "(empty)")])
  {
  }

  /** Under an object schema, a dictionary holding none of the properties
      shows nothing at all — in particular an empty dictionary shows no
      `(empty)` line. */
  lemma SchemaNothingPresent(data: Json, schema: Json, level: nat)
    requires schema.JObj? && FollowsSchema(schema.entries, data)
    requires Field(schema.entries, "properties", Empty).JObj?
    requires var props := Field(schema.entries, "properties", Empty).entries;
             forall i :: 0 <= i < |props| ==> FindKey(data.entries, props[i].0).None?
    ensures Format(data, schema, level) == Ok([])
  {
    var props := Field(schema.entries, "properties", Empty).entries;
    ConcatAllEmpty(PropertyBlocks(props, data, level));
  }

  /** A string shows one line per line of its stripped text: each line is
      the indent and two spaces followed by that text, and the texts joined
      by newlines give back the stripped string. */
  lemma FormatTextLines(s: string, schema: Json, level: nat)
    requires schema.JObj?
    ensures var r := Format(JStr(s), schema, level);
            var prefix := Indent(level) + "  ";
            && r.Ok?
            && |r.value| == |Split(Strip(s), '\n')|
            && (forall i :: 0 <= i < |r.value| ==> StartsWith(r.value[i], prefix) && '\n' !in r.value[i][|prefix|..])
            && Join("\n", seq(|r.value|, i requires 0 <= i < |r.value| => r.value[i][|prefix|..])) == Strip(s)
  {
    assert Format(JStr(s), schema, level) == Ok(TextLines(Indent(level), s));
    TextLinesRoundTrip(Indent(level), s);
  }

  lemma TextLinesRoundTrip(indent: string, s: string)
    ensures var lines := TextLines(indent, s);
            var prefix := indent + "  ";
            && |lines| == |Split(Strip(s), '\n')|
            && (forall i :: 0 <= i < |lines| ==> StartsWith(lines[i], prefix) && '\n' !in lines[i][|prefix|..])
            && Join("\n", seq(|lines|, i requires 0 <= i < |lines| => lines[i][|prefix|..])) == Strip(s)
  {
    var prefix := indent + "  ";
    var parts := Split(Strip(s), '\n');
    var lines := TextLines(indent, s);
    forall i | 0 <= i < |lines|
      ensures StartsWith(lines[i], prefix) && lines[i][|prefix|..] == parts[i]
    {
      assert lines[i] == prefix + parts[i];
    }
    assert seq(|lines|, i requires 0 <= i < |lines| => lines[i][|prefix|..]) == parts;
  }

  /** A list of one item shows that item at the list's own level. */
  lemma SingleItemList(item: Json, schema: Json, level: nat)
    requires schema.JObj? && !FollowsSchema(schema.entries, JArr([item]))
    ensures Format(JArr([item]), schema, level) == Format(item, Field(schema.entries, "items", Empty), level)
  {
    var itemSchema := Field(schema.entries, "items", Empty);
    var blocks := ItemBlocks(JArr([item]), itemSchema, level);
    assert blocks == [Format(item, itemSchema, level)];
    ConcatAllSingle(Format(item, itemSchema, level));
  }

  /** Without an object schema, a non-empty dictionary is rendered entry by
      entry in ascending key order: each entry is its key's heading followed
      by its value one level deeper, and no entry raises. */
  lemma DictionaryInKeyOrder(es: seq<(string, Json)>, schema: Json, level: nat)
    requires es != [] && schema.JObj? && !FollowsSchema(schema.entries, JObj(es))
    ensures var sorted := Sorting.SortByKey(es);
            var blocks := EntryBlocks(sorted, JObj(es), level);
            && multiset(sorted) == multiset(es)
            && (forall i, j :: 0 <= i < j < |sorted| ==> !LexLess(sorted[j].0, sorted[i].0))
            && Format(JObj(es), schema, level) == ConcatAll(blocks)
            && |blocks| == |sorted|
            && forall i :: 0 <= i < |sorted| ==>
                 blocks[i] == Ok([Heading(Indent(level), DisplayName(sorted[i].0))] + PlainLines(sorted[i].1, level + 1))
  {
    FormatDictionary(es, schema, level);
    EntryBlocksPlain(Sorting.SortByKey(es), JObj(es), level);
  }

  /** A non-empty dictionary without an object schema is the blocks of its
      sorted entries. */
  lemma FormatDictionary(es: seq<(string, Json)>, schema: Json, level: nat)
    requires es != [] && schema.JObj? && !FollowsSchema(schema.entries, JObj(es))
    ensures Format(JObj(es), schema, level) == ConcatAll(EntryBlocks(Sorting.SortByKey(es), JObj(es), level))
  {
  }

  /** Every block of entries rendered without a schema is its heading and
      its value's lines. */
  lemma EntryBlocksPlain(sorted: seq<(string, Json)>, data: Json, level: nat)
    requires data.JObj? && multiset(sorted) == multiset(data.entries)
    ensures var blocks := EntryBlocks(sorted, data, level);
            && |blocks| == |sorted|
            && forall i :: 0 <= i < |sorted| ==>
                 blocks[i] == Ok([Heading(Indent(level), DisplayName(sorted[i].0))] + PlainLines(sorted[i].1, level + 1))
  {
    var blocks := EntryBlocks(sorted, data, level);
    forall i | 0 <= i < |sorted|
      ensures blocks[i] == Ok([Heading(Indent(level), DisplayName(sorted[i].0))] + PlainLines(sorted[i].1, level + 1))
    {
      assert blocks[i] == EntryBlock(sorted[i].0, sorted[i].1, level);
      EntryBlockPlain(sorted[i].0, sorted[i].1, level);
    }
  }

  /** An entry rendered without a schema never raises. */
  lemma EntryBlockPlain(key: string, value: Json, level: nat)
    ensures EntryBlock(key, value, level) == Ok([Heading(Indent(level), DisplayName(key))] + PlainLines(value, level + 1))
  {
    var lines := PlainLines(value, level + 1);
  }

  /** The blocks of a list of entries do not depend on the dictionary they
      were taken from. */
  lemma EntryBlocksOfEntries(sorted: seq<(string, Json)>, p: Json, q: Json, level: nat)
    requires p.JObj? && multiset(sorted) == multiset(p.entries)
    requires q.JObj? && multiset(sorted) == multiset(q.entries)
    ensures EntryBlocks(sorted, p, level) == EntryBlocks(sorted, q, level)
  {
  }

  /** Without an object schema, the key order of a dictionary does not
      matter: two dictionaries with the same entries in any insertion order
      show the same lines. */
  lemma FormatIgnoresInsertionOrder(p: seq<(string, Json)>, q: seq<(string, Json)>, schema: Json, level: nat)
    requires Sorting.UniqueKeys(p) && multiset(p) == multiset(q)
    requires schema.JObj? && !(Lookup(schema.entries, "type") == Some(JStr("object")) &&
                               Lookup(schema.entries, "properties").Some?)
    ensures Format(JObj(p), schema, level) == Format(JObj(q), schema, level)
  {
    Sorting.SortIgnoresOrder(p, q);
    if p == [] {
      assert |q| == |multiset(q)| == 0;
    } else {
      assert q != [] by {
        assert |q| == |multiset(q)| == |multiset(p)| == |p|;
      }
      FormatDictionary(p, schema, level);
      FormatDictionary(q, schema, level);
      EntryBlocksOfEntries(Sorting.SortByKey(p), JObj(p), JObj(q), level);
    }
  }
}
