/** The parsed PubMed XML as an element tree: a tag, attributes, the text
    before the first child (Python's `elem.text`, which may be `None`) and
    the child elements in document order. `find`/`findall` with the
    `.//X` and `.//X/Y` paths are modelled exactly: `.//X` is every element
    below the current one (never the element itself) with tag `X`, in
    document order, and `.//X/Y` is, for each such `X`, its direct `Y`
    children. */
module XmlTree {
  import opened Outcomes
  import opened Seqs
  import Json

  datatype Element = Element(tag: string, attrs: map<string, string>, text: Option<string>, children: seq<Element>)

  /** `elem.iter()`: the element followed by everything below it, in
      document (pre-)order. */
  function Subtree(e: Element): (r: seq<Element>)
    ensures r != [] && r[0] == e
    decreases e, 1
  {
    [e] + Descendants(e)
  }

  /** Everything strictly below an element, in document order. */
  function Descendants(e: Element): seq<Element>
    decreases e, 0
  {
    Flatten(seq(|e.children|, i requires 0 <= i < |e.children| => Subtree(e.children[i])))
  }

  /** The elements of `xs` with the given tag, in order. */
  function WithTag(xs: seq<Element>, tag: string): (r: seq<Element>)
    ensures |r| <= |xs|
    ensures forall i :: 0 <= i < |r| ==> r[i].tag == tag
  {
    if xs == [] then []
    else (if xs[0].tag == tag then [xs[0]] else []) + WithTag(xs[1..], tag)
  }

  /** `elem.findall('.//tag')`. */
  function FindAll(e: Element, tag: string): (r: seq<Element>)
    ensures forall i :: 0 <= i < |r| ==> r[i].tag == tag
  {
    WithTag(Descendants(e), tag)
  }

  /** `elem.find('.//tag')`: the first match in document order, or `None`. */
  function Find(e: Element, tag: string): (r: Option<Element>)
    ensures r.None? <==> FindAll(e, tag) == []
    ensures r.Some? ==> r.value == FindAll(e, tag)[0] && r.value.tag == tag
  {
    First(FindAll(e, tag))
  }

  /** `elem.findall('.//outer/inner')`: for each `outer` below `e`, its
      `inner` children. */
  function FindAllPath(e: Element, outer: string, inner: string): (r: seq<Element>)
    ensures forall i :: 0 <= i < |r| ==> r[i].tag == inner
  {
    var groups := FindAll(e, outer);
    var rs := seq(|groups|, i requires 0 <= i < |groups| => WithTag(groups[i].children, inner));
    FlattenTagged(rs, inner);
    Flatten(rs)
  }

  lemma {:induction false} FlattenTagged(xss: seq<seq<Element>>, tag: string)
    requires forall i, j :: 0 <= i < |xss| && 0 <= j < |xss[i]| ==> xss[i][j].tag == tag
    ensures forall k :: 0 <= k < |Flatten(xss)| ==> Flatten(xss)[k].tag == tag
  {
    if xss != [] {
      FlattenTagged(xss[1..], tag);
      var f := Flatten(xss);
      forall k | 0 <= k < |f| ensures f[k].tag == tag {
        if k >= |xss[0]| {
          assert f[k] == Flatten(xss[1..])[k - |xss[0]|];
        }
      }
    }
  }

  /** `elem.find('.//outer/inner')`. */
  function FindPath(e: Element, outer: string, inner: string): (r: Option<Element>)
    ensures r.None? <==> FindAllPath(e, outer, inner) == []
    ensures r.Some? ==> r.value.tag == inner
  {
    First(FindAllPath(e, outer, inner))
  }

  /** `elem.get(name, default)`. */
  function AttrOr(e: Element, name: string, default: string): (r: string)
    ensures name in e.attrs ==> r == e.attrs[name]
    ensures name !in e.attrs ==> r == default
  {
    if name in e.attrs then e.attrs[name] else default
  }

  /** `elem.text` as a Python value: a string or `None`. */
  function TextValue(e: Element): (r: Json.Json)
    ensures e.text.Some? ==> r == Json.JStr(e.text.value)
    ensures e.text.None? ==> r == Json.JNull
  {
    match e.text
    case Some(t) => Json.JStr(t)
    case None => Json.JNull
  }

  /** `elem.text or ""`. */
  function TextOrEmpty(e: Element): (r: string)
    ensures e.text.Some? ==> r == e.text.value
    ensures e.text.None? ==> r == ""
  {
    e.text.GetOr("")
  }

  /** An f-string interpolation of `elem.text`: `None` is rendered as
      `"None"`. */
  function TextInterp(e: Element): (r: string)
    ensures e.text.Some? ==> r == e.text.value
    ensures e.text.None? ==> r == "None"
  {
    e.text.GetOr("None")
  }

  /** `s = elem.text; s += suffix`: concatenating onto a `None` text raises
      `TypeError`. */
  function TextAppend(e: Element, suffix: string): (r: Outcome<string>)
    ensures r.Ok? <==> e.text.Some?
    ensures r.Ok? ==> r.value == e.text.value + suffix
  {
    match e.text
    case Some(t) => Ok(t + suffix)
    case None => Raised
  }

  /** A direct child is among an element's descendants. */
  lemma ChildIsDescendant(e: Element, i: nat)
    requires i < |e.children|
    ensures e.children[i] in Descendants(e)
  {
    var parts := seq(|e.children|, j requires 0 <= j < |e.children| => Subtree(e.children[j]));
    FlattenContains(parts, i, 0);
  }

  lemma {:induction false} FlattenContains<T>(xss: seq<seq<T>>, i: nat, j: nat)
    requires i < |xss| && j < |xss[i]|
    ensures xss[i][j] in Flatten(xss)
  {
    if i > 0 {
      FlattenContains(xss[1..], i - 1, j);
    } else {
      assert Flatten(xss)[j] == xss[0][j];
    }
  }

  /** The filter keeps every element with the tag and only elements of
      `xs`. */
  lemma {:induction false} WithTagMembers(xs: seq<Element>, tag: string, x: Element)
    ensures x in WithTag(xs, tag) <==> x in xs && x.tag == tag
  {
    if xs != [] {
      WithTagMembers(xs[1..], tag, x);
      assert xs == [xs[0]] + xs[1..];
    }
  }

  /** A direct child with the searched tag is found. */
  lemma ChildFound(e: Element, i: nat, tag: string)
    requires i < |e.children| && e.children[i].tag == tag
    ensures e.children[i] in FindAll(e, tag)
    ensures Find(e, tag).Some?
  {
    ChildIsDescendant(e, i);
    WithTagMembers(Descendants(e), tag, e.children[i]);
  }
}
