/** Python values as the connectors see them after `json.loads`: `None`,
    booleans, integers, strings, lists and dictionaries. A dictionary keeps
    its insertion order, as Python's does; floats are not modelled. The
    functions here are the Python operations the connectors apply to such
    values — `d.get(k, default)`, `d[k] = v`, truthiness, `str(v)`, `len(v)`,
    iteration and slicing — each raising where Python raises. */
module Json {
  import opened Outcomes
  import opened PyText
  import Sorting
  import Seqs

  datatype Json =
    | JNull
    | JBool(b: bool)
    | JInt(i: int)
    | JStr(s: string)
    | JArr(items: seq<Json>)
    | JObj(entries: seq<(string, Json)>)

  /** The empty dictionary `{}`. */
  const Empty: Json := JObj([])

  /** Python truthiness: `None`, `False`, `0` and empty containers are false. */
  predicate Truthy(v: Json)
  {
    match v
    case JNull => false
    case JBool(b) => b
    case JInt(i) => i != 0
    case JStr(s) => s != []
    case JArr(xs) => xs != []
    case JObj(es) => es != []
  }

  /** Position of a key among a dictionary's entries. */
  function FindKey(es: seq<(string, Json)>, k: string): (r: Option<nat>)
    ensures r.Some? ==> r.value < |es| && es[r.value].0 == k
    ensures r.Some? ==> forall j :: 0 <= j < r.value ==> es[j].0 != k
    ensures r.None? ==> forall j :: 0 <= j < |es| ==> es[j].0 != k
  {
    if es == [] then None
    else if es[0].0 == k then Some(0)
    else
      match FindKey(es[1..], k)
      case None => None
      case Some(j) => Some(j + 1)
  }

  /** `es[k]` when the key is present. */
  function Lookup(es: seq<(string, Json)>, k: string): (r: Option<Json>)
    ensures r.Some? <==> exists j :: 0 <= j < |es| && es[j].0 == k
    ensures r.Some? ==> (k, r.value) in es
  {
    match FindKey(es, k)
    case None => None
    case Some(j) => Some(es[j].1)
  }

  /** In a dictionary whose keys are unique, a key's lookup is the value
      stored beside it. */
  lemma LookupUnique(es: seq<(string, Json)>, j: nat)
    requires Sorting.UniqueKeys(es) && j < |es|
    ensures Lookup(es, es[j].0) == Some(es[j].1)
  {
  }

  /** `v.get(k, default)`; raises `AttributeError` when `v` is not a
      dictionary. */
  function Get(v: Json, k: string, default: Json): (r: Outcome<Json>)
    ensures r.Raised? <==> !v.JObj?
    ensures v.JObj? && Lookup(v.entries, k).None? ==> r == Ok(default)
    ensures v.JObj? && Lookup(v.entries, k).Some? ==> r == Ok(Lookup(v.entries, k).value)
  {
    match v
    case JObj(es) => Ok(Lookup(es, k).GetOr(default))
    case _ => Raised
  }

  /** The entries of a value used as a mapping, as `{**d}` or `d.items()`
      read them; a value that is not a dictionary raises. */
  function AsObject(v: Json): (r: Outcome<seq<(string, Json)>>)
    ensures r.Ok? <==> v.JObj?
    ensures r.Ok? ==> r.value == v.entries
  {
    if v.JObj? then Ok(v.entries) else Raised
  }

  /** `x in container`: membership by equality in a list, key membership in
      a dictionary (a list or dictionary cannot be a key), substring search
      in a string (which needs a string); anything else raises. */
  function PyIn(x: Json, container: Json): (r: Outcome<bool>)
    ensures container.JArr? ==> r == Ok(x in container.items)
    ensures container.JStr? ==> (r.Ok? <==> x.JStr?)
    ensures r.Ok? ==> container.JArr? || container.JObj? || container.JStr?
  {
    match container
    case JArr(xs) => Ok(x in xs)
    case JObj(es) => if x.JArr? || x.JObj? then Raised else Ok(x.JStr? && Lookup(es, x.s).Some?)
    case JStr(s) => if x.JStr? then Ok(Contains(s, x.s)) else Raised
    case _ => Raised
  }

  /** `d.get(k, default)` on a value already known to be a dictionary. */
  function Field(es: seq<(string, Json)>, k: string, default: Json): (r: Json)
    ensures Lookup(es, k).Some? ==> r == Lookup(es, k).value
    ensures Lookup(es, k).None? ==> r == default
  {
    Lookup(es, k).GetOr(default)
  }

  /** `for x in v[:n]`: the first `n` items of a list or characters of a
      string; anything else cannot be sliced. */
  function SliceItems(v: Json, n: nat): (r: Outcome<seq<Json>>)
    ensures r.Ok? <==> (v.JStr? || v.JArr?)
    ensures v.JArr? ==> r == Ok(Seqs.Take(v.items, n))
    ensures r.Ok? ==> |r.value| <= n
  {
    match v
    case JArr(xs) => Ok(Seqs.Take(xs, n))
    case JStr(s) =>
      var t := Seqs.Take(s, n);
      Ok(seq(|t|, i requires 0 <= i < |t| => JStr([t[i]])))
    case _ => Raised
  }

  /** Two dictionaries with the same keys at the same positions find every
      key at the same place. */
  lemma FindKeySameKeys(a: seq<(string, Json)>, b: seq<(string, Json)>, k: string)
    requires |a| == |b| && forall j :: 0 <= j < |a| ==> a[j].0 == b[j].0
    ensures FindKey(a, k) == FindKey(b, k)
  {
    if a != [] && a[0].0 != k {
      FindKeySameKeys(a[1..], b[1..], k);
    }
  }

  /** Appending an entry leaves every lookup of another key alone, and a key
      that was absent is found at the end. */
  lemma FindKeyAppend(es: seq<(string, Json)>, k: string, v: Json, k': string)
    ensures k' != k ==> FindKey(es + [(k, v)], k') == FindKey(es, k')
    ensures k' == k && FindKey(es, k).None? ==> FindKey(es + [(k, v)], k) == Some(|es|)
  {
    if es != [] {
      assert (es + [(k, v)])[1..] == es[1..] + [(k, v)];
      FindKeyAppend(es[1..], k, v, k');
    }
  }

  /** `d[k] = v`: an existing key keeps its position and takes the new value,
      a new key is appended at the end. */
  function Put(es: seq<(string, Json)>, k: string, v: Json): (r: seq<(string, Json)>)
    ensures Lookup(r, k) == Some(v)
    ensures forall k' :: k' != k ==> Lookup(r, k') == Lookup(es, k')
    ensures Lookup(es, k).None? ==> r == es + [(k, v)]
    ensures Lookup(es, k).Some? ==> |r| == |es| && forall j :: 0 <= j < |es| ==> r[j].0 == es[j].0
  {
    match FindKey(es, k)
    case Some(j) =>
      var r := es[j := (k, v)];
      forall k' | k' != k ensures Lookup(r, k') == Lookup(es, k') {
        FindKeySameKeys(r, es, k');
      }
      FindKeySameKeys(r, es, k);
      r
    case None =>
      var r := es + [(k, v)];
      forall k' | k' != k ensures Lookup(r, k') == Lookup(es, k') {
        FindKeyAppend(es, k, v, k');
      }
      FindKeyAppend(es, k, v, k);
      r
  }

  /** Assignment keeps the keys of a dictionary unique. */
  lemma PutKeepsUnique(es: seq<(string, Json)>, k: string, v: Json)
    requires Sorting.UniqueKeys(es)
    ensures Sorting.UniqueKeys(Put(es, k, v))
  {
  }

  /** `{**d}` followed by a sequence of assignments, as in a dict display. */
  function PutAll(es: seq<(string, Json)>, kvs: seq<(string, Json)>): seq<(string, Json)>
    decreases |kvs|
  {
    if kvs == [] then es else PutAll(Put(es, kvs[0].0, kvs[0].1), kvs[1..])
  }

  /** `{**es, **kvs}` for a dictionary `kvs`: a key of `kvs` takes its value
      there, and any other key keeps its value in `es`. */
  lemma {:induction false} PutAllLookup(es: seq<(string, Json)>, kvs: seq<(string, Json)>, k: string)
    requires Sorting.UniqueKeys(kvs)
    ensures Lookup(PutAll(es, kvs), k) == if Lookup(kvs, k).Some? then Lookup(kvs, k) else Lookup(es, k)
    decreases |kvs|
  {
    if kvs != [] {
      var rest := kvs[1..];
      assert Sorting.UniqueKeys(rest) by {
        forall i, j | 0 <= i < j < |rest| ensures rest[i].0 != rest[j].0 {
          assert rest[i] == kvs[i + 1] && rest[j] == kvs[j + 1];
        }
      }
      PutAllLookup(Put(es, kvs[0].0, kvs[0].1), rest, k);
      if k == kvs[0].0 {
        assert Lookup(rest, k).None? by {
          forall j | 0 <= j < |rest| ensures rest[j].0 != k {
            assert rest[j] == kvs[j + 1];
          }
        }
      } else {
        assert FindKey(kvs, k) == (match FindKey(rest, k) case Some(j) => Some(j + 1) case None => None);
      }
    }
  }

  /** `if v is not None: d[k] = v` for each field in order. */
  function PutPresent(es: seq<(string, Json)>, fields: seq<(string, Option<Json>)>): seq<(string, Json)>
    decreases |fields|
  {
    if fields == [] then es
    else
      var next := if fields[0].1.Some? then Put(es, fields[0].0, fields[0].1.value) else es;
      PutPresent(next, fields[1..])
  }

  /** Fields under other keys leave a lookup alone. */
  lemma {:induction false} PutPresentOther(es: seq<(string, Json)>, fields: seq<(string, Option<Json>)>, k: string)
    requires forall j :: 0 <= j < |fields| ==> fields[j].0 != k
    ensures Lookup(PutPresent(es, fields), k) == Lookup(es, k)
    decreases |fields|
  {
    if fields != [] {
      var next := if fields[0].1.Some? then Put(es, fields[0].0, fields[0].1.value) else es;
      PutPresentOther(next, fields[1..], k);
    }
  }

  /** With distinct keys that were absent, each key ends up holding its
      field when the field is present, and stays absent otherwise. */
  lemma {:induction false} PutPresentLookup(es: seq<(string, Json)>, fields: seq<(string, Option<Json>)>, i: nat)
    requires i < |fields|
    requires forall a, b :: 0 <= a < b < |fields| ==> fields[a].0 != fields[b].0
    requires Lookup(es, fields[i].0).None?
    ensures Lookup(PutPresent(es, fields), fields[i].0) == fields[i].1
    decreases |fields|
  {
    var next := if fields[0].1.Some? then Put(es, fields[0].0, fields[0].1.value) else es;
    if i == 0 {
      PutPresentOther(next, fields[1..], fields[0].0);
    } else {
      assert fields[1..][i - 1] == fields[i];
      PutPresentLookup(next, fields[1..], i - 1);
    }
  }

  /** Starting from `{}`, the result is empty iff no field is present. */
  lemma {:induction false} PutPresentEmpty(es: seq<(string, Json)>, fields: seq<(string, Option<Json>)>)
    ensures PutPresent(es, fields) == [] <==> es == [] && forall j :: 0 <= j < |fields| ==> fields[j].1.None?
    decreases |fields|
  {
    if fields != [] {
      var next := if fields[0].1.Some? then Put(es, fields[0].0, fields[0].1.value) else es;
      PutPresentEmpty(next, fields[1..]);
      if fields[0].1.Some? {
        assert Lookup(next, fields[0].0).Some?;
      }
      if es == [] && forall j :: 0 <= j < |fields| ==> fields[j].1.None? {
        assert forall j :: 0 <= j < |fields| - 1 ==> fields[1..][j].1.None?;
      }
      if PutPresent(es, fields) == [] {
        assert forall j :: 1 <= j < |fields| ==> fields[j] == fields[1..][j - 1];
      }
    }
  }

  /** The repr of a string, quoted with single quotes (Python's choice of
      quote and its escapes are not modelled). */
  function QuoteRepr(s: string): (r: string)
    ensures |r| == |s| + 2 && r[0] == '\'' && r[|r| - 1] == '\'' && r[1..|r| - 1] == s
  {
    "'" + s + "'"
  }

  /** `repr(v)`: the text Python prints for a value inside a container. */
  function PyRepr(v: Json): string
    decreases v
  {
    match v
    case JNull => "None"
    case JBool(b) => if b then "True" else "False"
    case JInt(i) => IntToStr(i)
    case JStr(s) => QuoteRepr(s)
    case JArr(xs) => "[" + Join(", ", seq(|xs|, i requires 0 <= i < |xs| => PyRepr(xs[i]))) + "]"
    case JObj(es) =>
      "{" + Join(", ", seq(|es|, i requires 0 <= i < |es| => QuoteRepr(es[i].0) + ": " + PyRepr(es[i].1))) + "}"
  }

  /** `str(v)`, which is also what an f-string interpolates: a string is
      itself, anything else is its repr. */
  function PyStr(v: Json): (r: string)
    ensures v.JStr? ==> r == v.s
    ensures v.JArr? ==> StartsWith(r, "[") && EndsWith(r, "]")
    ensures v.JObj? ==> StartsWith(r, "{") && EndsWith(r, "}")
  {
    if v.JStr? then v.s else PyRepr(v)
  }

  /** `str.method()` on a value: only a string has string methods. */
  function AsStr(v: Json): (r: Outcome<string>)
    ensures r.Ok? <==> v.JStr?
    ensures r.Ok? ==> r.value == v.s
  {
    if v.JStr? then Ok(v.s) else Raised
  }

  /** `len(v)`: defined for strings, lists and dictionaries; a `TypeError`
      otherwise. */
  function PyLen(v: Json): (r: Outcome<nat>)
    ensures r.Ok? <==> (v.JStr? || v.JArr? || v.JObj?)
  {
    match v
    case JStr(s) => Ok(|s|)
    case JArr(xs) => Ok(|xs|)
    case JObj(es) => Ok(|es|)
    case _ => Raised
  }

  /** `for x in v`: a list yields its items, a string its characters, a
      dictionary its keys; anything else is not iterable. */
  function PyIter(v: Json): (r: Outcome<seq<Json>>)
    ensures r.Ok? <==> (v.JStr? || v.JArr? || v.JObj?)
    ensures r.Ok? ==> |r.value| == PyLen(v).value
    ensures v.JArr? ==> r == Ok(v.items)
    ensures v.JStr? ==> forall i :: 0 <= i < |v.s| ==> r.value[i] == JStr([v.s[i]])
    ensures v.JObj? ==> forall i :: 0 <= i < |v.entries| ==> r.value[i] == JStr(v.entries[i].0)
  {
    match v
    case JArr(xs) => Ok(xs)
    case JStr(s) => Ok(seq(|s|, i requires 0 <= i < |s| => JStr([s[i]])))
    case JObj(es) => Ok(seq(|es|, i requires 0 <= i < |es| => JStr(es[i].0)))
    case _ => Raised
  }

  /** `v[:n]`: lists and strings slice; a dictionary or scalar raises. */
  function Slice(v: Json, n: nat): (r: Outcome<Json>)
    ensures r.Ok? <==> (v.JStr? || v.JArr?)
    ensures v.JArr? ==> r == Ok(JArr(Seqs.Take(v.items, n)))
    ensures v.JStr? ==> r == Ok(JStr(Seqs.Take(v.s, n)))
  {
    match v
    case JArr(xs) => Ok(JArr(Seqs.Take(xs, n)))
    case JStr(s) => Ok(JStr(Seqs.Take(s, n)))
    case _ => Raised
  }

  /** `v[:n] + "..." if len(v) > n else v`: a long string is cut to `n`
      characters and marked; a long list or dictionary cannot be joined to
      `"..."` and raises, as does a value without a length. */
  function ClipValue(v: Json, n: nat): (r: Outcome<Json>)
    ensures v.JStr? ==> r == Ok(JStr(Truncate(v.s, n)))
    ensures (v.JArr? || v.JObj?) ==> (r.Ok? <==> PyLen(v).value <= n)
    ensures r.Ok? && !v.JStr? ==> r == Ok(v)
    ensures !(v.JStr? || v.JArr? || v.JObj?) ==> r.Raised?
  {
    var len :- PyLen(v);
    if len > n then
      (if v.JStr? then Ok(JStr(v.s[..n] + "...")) else Raised)
    else Ok(v)
  }

  /** A list of strings as a JSON array's items. */
  function Strings(xs: seq<string>): (r: seq<Json>)
    ensures |r| == |xs| && forall i :: 0 <= i < |xs| ==> r[i] == JStr(xs[i])
  {
    seq(|xs|, i requires 0 <= i < |xs| => JStr(xs[i]))
  }

  /** The keys of a dictionary's entries, in order. */
  function Keys(es: seq<(string, Json)>): (r: seq<string>)
    ensures |r| == |es| && forall i :: 0 <= i < |es| ==> r[i] == es[i].0
  {
    seq(|es|, i requires 0 <= i < |es| => es[i].0)
  }

  /** `min(v, bound)`: Python compares an integer or a boolean with the
      bound and returns the first argument unless the bound is smaller;
      anything else cannot be compared with an integer. */
  function PyMin(v: Json, bound: int): (r: Outcome<Json>)
    ensures r.Ok? <==> v.JInt? || v.JBool?
    ensures v.JInt? ==> r == Ok(JInt(if bound < v.i then bound else v.i))
    ensures r.Ok? && r.value.JInt? ==> r.value.i <= bound || (v.JBool? && r.value == v)
  {
    match v
    case JInt(i) => Ok(JInt(if bound < i then bound else i))
    case JBool(b) => Ok(if bound < (if b then 1 else 0) then JInt(bound) else v)
    case _ => Raised
  }
}
