/** Sequence helpers shared by the normalisers: list comprehensions with a
    filter (`[f(x) for x in xs if f(x)]`), first-N slices and flattening. */
module Seqs {
  import opened Outcomes

  /** `[y for x in xs for y in [f(x)] if y is not None]`: apply `f` and keep
      the results that are present, in input order. */
  function FilterMap<T, U>(xs: seq<T>, f: T -> Option<U>): seq<U>
  {
    if xs == [] then []
    else (if f(xs[0]).Some? then [f(xs[0]).value] else []) + FilterMap(xs[1..], f)
  }

  /** Filtering distributes over concatenation, so the kept results of an
      earlier input always come before those of a later one. */
  lemma {:induction false} FilterMapConcat<T, U>(xs: seq<T>, ys: seq<T>, f: T -> Option<U>)
    ensures FilterMap(xs + ys, f) == FilterMap(xs, f) + FilterMap(ys, f)
  {
    if xs != [] {
      assert (xs + ys)[0] == xs[0];
      assert (xs + ys)[1..] == xs[1..] + ys;
      FilterMapConcat(xs[1..], ys, f);
      var h := if f(xs[0]).Some? then [f(xs[0]).value] else [];
      calc {
        FilterMap(xs + ys, f);
        h + FilterMap(xs[1..] + ys, f);
        h + (FilterMap(xs[1..], f) + FilterMap(ys, f));
        (h + FilterMap(xs[1..], f)) + FilterMap(ys, f);
      }
    } else {
      assert xs + ys == ys;
    }
  }

  lemma FilterMapSnoc<T, U>(xs: seq<T>, x: T, f: T -> Option<U>)
    ensures FilterMap(xs + [x], f) == FilterMap(xs, f) + (if f(x).Some? then [f(x).value] else [])
  {
    FilterMapConcat(xs, [x], f);
  }

  /** One more element of a prefix: the loop step of every filtering loop. */
  lemma FilterMapPrefixStep<T, U>(xs: seq<T>, i: nat, f: T -> Option<U>)
    requires i < |xs|
    ensures FilterMap(xs[..i + 1], f) == FilterMap(xs[..i], f) + (if f(xs[i]).Some? then [f(xs[i]).value] else [])
  {
    assert xs[..i + 1] == xs[..i] + [xs[i]];
    FilterMapSnoc(xs[..i], xs[i], f);
  }

  /** Filtering never adds elements. */
  lemma {:induction false} FilterMapLength<T, U>(xs: seq<T>, f: T -> Option<U>)
    ensures |FilterMap(xs, f)| <= |xs|
  {
    if xs != [] {
      FilterMapLength(xs[1..], f);
    }
  }

  /** Every kept element comes from some input, and every present result of
      an input is kept. */
  lemma {:induction false} FilterMapMembers<T, U>(xs: seq<T>, f: T -> Option<U>, y: U)
    ensures y in FilterMap(xs, f) <==> exists i :: 0 <= i < |xs| && f(xs[i]) == Some(y)
  {
    if xs != [] {
      FilterMapMembers(xs[1..], f, y);
      if exists i :: 0 <= i < |xs| && f(xs[i]) == Some(y) {
        var i :| 0 <= i < |xs| && f(xs[i]) == Some(y);
        if i > 0 {
          assert f(xs[1..][i - 1]) == Some(y);
        }
      }
    }
  }

  /** When every result is absent, nothing is kept. */
  lemma {:induction false} FilterMapAllAbsent<T, U>(xs: seq<T>, f: T -> Option<U>)
    requires forall i :: 0 <= i < |xs| ==> f(xs[i]).None?
    ensures FilterMap(xs, f) == []
  {
    if xs != [] {
      assert forall i :: 0 <= i < |xs[1..]| ==> xs[1..][i] == xs[i + 1];
      FilterMapAllAbsent(xs[1..], f);
    }
  }

  /** When nothing is dropped, filtering is a plain map. */
  lemma {:induction false} FilterMapAllPresent<T, U>(xs: seq<T>, f: T -> Option<U>)
    requires forall i :: 0 <= i < |xs| ==> f(xs[i]).Some?
    ensures |FilterMap(xs, f)| == |xs|
    ensures forall i :: 0 <= i < |xs| ==> FilterMap(xs, f)[i] == f(xs[i]).value
  {
    if xs != [] {
      FilterMapAllPresent(xs[1..], f);
    }
  }

  /** `[y for x in xs if (y := f(x)) is not None]` where `f` may raise:
      the first exception escapes, otherwise the present results are kept
      in order. */
  function TryFilterMap<T, U>(xs: seq<T>, f: T -> Outcome<Option<U>>): (r: Outcome<seq<U>>)
    ensures r.Ok? <==> forall i :: 0 <= i < |xs| ==> f(xs[i]).Ok?
    ensures r.Ok? ==> |r.value| <= |xs|
  {
    if xs == [] then Ok([])
    else
      var y :- f(xs[0]);
      var ys :- TryFilterMap(xs[1..], f);
      Ok((if y.Some? then [y.value] else []) + ys)
  }

  /** When nothing raises, the kept results are those of the exception-free
      filter. */
  lemma {:induction false} TryFilterMapOk<T, U>(xs: seq<T>, f: T -> Outcome<Option<U>>, g: T -> Option<U>)
    requires forall i :: 0 <= i < |xs| ==> f(xs[i]) == Ok(g(xs[i]))
    ensures TryFilterMap(xs, f) == Ok(FilterMap(xs, g))
  {
    if xs != [] {
      TryFilterMapOk(xs[1..], f, g);
    }
  }

  /** Adding an input at the end raises when it raises, and otherwise adds
      its present result at the end. */
  lemma {:induction false} TryFilterMapSnoc<T, U>(xs: seq<T>, x: T, f: T -> Outcome<Option<U>>)
    requires TryFilterMap(xs, f).Ok?
    ensures f(x).Raised? ==> TryFilterMap(xs + [x], f).Raised?
    ensures f(x).Ok? ==>
              TryFilterMap(xs + [x], f) ==
                Ok(TryFilterMap(xs, f).value + (if f(x).value.Some? then [f(x).value.value] else []))
  {
    if xs == [] {
      assert xs + [x] == [x] && [x][1..] == [];
      if f(x).Ok? {
        var t := if f(x).value.Some? then [f(x).value.value] else [];
        assert TryFilterMap([x], f) == Ok(t + []);
        assert TryFilterMap(xs, f).value + t == t + [];
      }
    } else {
      var ys := xs + [x];
      assert ys[0] == xs[0];
      assert ys[1..] == xs[1..] + [x];
      TryFilterMapSnoc(xs[1..], x, f);
      var h := if f(xs[0]).value.Some? then [f(xs[0]).value.value] else [];
      assert TryFilterMap(xs, f).value == h + TryFilterMap(xs[1..], f).value;
      if f(x).Ok? {
        var t := if f(x).value.Some? then [f(x).value.value] else [];
        assert TryFilterMap(ys, f).value == h + TryFilterMap(xs[1..] + [x], f).value;
        assert h + (TryFilterMap(xs[1..], f).value + t) == (h + TryFilterMap(xs[1..], f).value) + t;
      }
    }
  }

  /** When nothing raises, every kept result is the present result of some
      input, and every present result is kept. */
  lemma {:induction false} TryFilterMapMembers<T, U>(xs: seq<T>, f: T -> Outcome<Option<U>>, y: U)
    requires TryFilterMap(xs, f).Ok?
    ensures y in TryFilterMap(xs, f).value <==> exists i :: 0 <= i < |xs| && f(xs[i]) == Ok(Some(y))
  {
    if xs != [] {
      TryFilterMapMembers(xs[1..], f, y);
      if exists i :: 0 <= i < |xs| && f(xs[i]) == Ok(Some(y)) {
        var i :| 0 <= i < |xs| && f(xs[i]) == Ok(Some(y));
        if i > 0 {
          assert f(xs[1..][i - 1]) == Ok(Some(y));
        }
      }
      if y in TryFilterMap(xs[1..], f).value {
        var j :| 0 <= j < |xs[1..]| && f(xs[1..][j]) == Ok(Some(y));
        assert f(xs[j + 1]) == Ok(Some(y));
      }
    }
  }

  /** Once a prefix raises, the whole sequence raises. */
  lemma TryFilterMapRaises<T, U>(xs: seq<T>, n: nat, f: T -> Outcome<Option<U>>)
    requires n <= |xs| && TryFilterMap(xs[..n], f).Raised?
    ensures TryFilterMap(xs, f).Raised?
  {
    var i :| 0 <= i < n && !f(xs[..n][i]).Ok?;
    assert xs[i] == xs[..n][i];
  }

  /** The loop `for x in xs: y = f(x); if y: out.append(y)`, for an `f`
      whose present results are all truthy. */
  method Collect<T, U>(xs: seq<T>, f: T -> Option<U>) returns (r: seq<U>)
    ensures r == FilterMap(xs, f)
  {
    r := [];
    for i := 0 to |xs|
      invariant r == FilterMap(xs[..i], f)
    {
      var y := f(xs[i]);
      assert xs[..i + 1] == xs[..i] + [xs[i]];
      FilterMapSnoc(xs[..i], xs[i], f);
      if y.Some? {
        r := r + [y.value];
      }
    }
    assert xs[..|xs|] == xs;
  }

  /** The loop `for x in xs: y = f(x); if y: out.append(y)` where `f` may
      raise, stopping at the first exception. */
  method TryCollect<T, U>(xs: seq<T>, f: T -> Outcome<Option<U>>) returns (r: Outcome<seq<U>>)
    ensures r == TryFilterMap(xs, f)
  {
    var kept: seq<U> := [];
    for i := 0 to |xs|
      invariant TryFilterMap(xs[..i], f) == Ok(kept)
    {
      var y := f(xs[i]);
      assert xs[..i + 1] == xs[..i] + [xs[i]];
      TryFilterMapSnoc(xs[..i], xs[i], f);
      if y.Raised? {
        TryFilterMapRaises(xs, i + 1, f);
        return Raised;
      }
      var t := if y.value.Some? then [y.value.value] else [];
      assert TryFilterMap(xs[..i] + [xs[i]], f) == Ok(kept + t);
      kept := kept + t;
    }
    assert xs[..|xs|] == xs;
    return Ok(kept);
  }

  /** `[f(x) for x in xs]` where `f` may raise: the first exception escapes,
      otherwise one result per input, in order. */
  function TryMap<T, U>(xs: seq<T>, f: T -> Outcome<U>): (r: Outcome<seq<U>>)
    ensures r.Ok? <==> forall i :: 0 <= i < |xs| ==> f(xs[i]).Ok?
    ensures r.Ok? ==> |r.value| == |xs| && forall i :: 0 <= i < |xs| ==> r.value[i] == f(xs[i]).value
  {
    if xs == [] then Ok([])
    else
      var y :- f(xs[0]);
      var ys :- TryMap(xs[1..], f);
      Ok([y] + ys)
  }

  /** Mapping one more input: its result comes last. */
  lemma {:induction false} TryMapSnoc<T, U>(xs: seq<T>, x: T, f: T -> Outcome<U>)
    requires TryMap(xs, f).Ok? && f(x).Ok?
    ensures TryMap(xs + [x], f) == Ok(TryMap(xs, f).value + [f(x).value])
  {
    if xs == [] {
      assert xs + [x] == [x];
      assert [x][1..] == [];
      assert [x][0] == x;
      assert TryMap<T, U>([x][1..], f) == Ok([]);
      assert TryMap([x], f) == Ok([f(x).value] + []);
      assert TryMap(xs, f).value + [f(x).value] == [f(x).value] + [];
    } else {
      var ys := xs + [x];
      assert ys[0] == xs[0];
      assert ys[1..] == xs[1..] + [x];
      assert TryMap(xs[1..], f).Ok?;
      assert TryMap(xs, f).value == [f(xs[0]).value] + TryMap(xs[1..], f).value;
      TryMapSnoc(xs[1..], x, f);
      assert TryMap(ys[1..], f) == Ok(TryMap(xs[1..], f).value + [f(x).value]);
      assert TryMap(ys, f) == Ok([f(xs[0]).value] + TryMap(ys[1..], f).value);
      assert [f(xs[0]).value] + (TryMap(xs[1..], f).value + [f(x).value])
          == ([f(xs[0]).value] + TryMap(xs[1..], f).value) + [f(x).value];
    }
  }

  /** One step of a loop mapping the inputs in order. */
  lemma TryMapStep<T, U>(xs: seq<T>, i: nat, f: T -> Outcome<U>)
    requires i < |xs| && TryMap(xs[..i], f).Ok? && f(xs[i]).Ok?
    ensures TryMap(xs[..i + 1], f) == Ok(TryMap(xs[..i], f).value + [f(xs[i]).value])
  {
    assert xs[..i + 1] == xs[..i] + [xs[i]];
    TryMapSnoc(xs[..i], xs[i], f);
  }

  /** `xs[:n]` for a non-negative `n`. */
  function Take<T>(xs: seq<T>, n: nat): (r: seq<T>)
    ensures |r| == if |xs| <= n then |xs| else n
    ensures forall i :: 0 <= i < |r| ==> r[i] == xs[i]
  {
    if |xs| <= n then xs else xs[..n]
  }

  /** Concatenation of a sequence of sequences. */
  function Flatten<T>(xss: seq<seq<T>>): seq<T>
  {
    if xss == [] then [] else xss[0] + Flatten(xss[1..])
  }

  lemma {:induction false} FlattenSnoc<T>(xss: seq<seq<T>>, xs: seq<T>)
    ensures Flatten(xss + [xs]) == Flatten(xss) + xs
  {
    if xss != [] {
      assert (xss + [xs])[1..] == xss[1..] + [xs];
      FlattenSnoc(xss[1..], xs);
    }
  }

  /** The parts of a result that may each raise, joined in order: the whole
      raises exactly when some part raises. */
  function ConcatAll<T>(parts: seq<Outcome<seq<T>>>): (r: Outcome<seq<T>>)
    ensures r.Ok? <==> forall i :: 0 <= i < |parts| ==> parts[i].Ok?
  {
    if parts == [] then Ok([])
    else
      var head :- parts[0];
      var tail :- ConcatAll(parts[1..]);
      Ok(head + tail)
  }

  /** A single part is joined to itself. */
  lemma ConcatAllSingle<T>(p: Outcome<seq<T>>)
    ensures ConcatAll([p]) == p
  {
    assert [p][1..] == [];
    assert ConcatAll<T>([]) == Ok([]);
    if p.Ok? {
      assert p.value + [] == p.value;
    }
  }

  /** One more part that does not raise adds its items at the end. */
  /** One part that raises makes the whole concatenation raise. */
  lemma ConcatAllRaised<T>(parts: seq<Outcome<seq<T>>>, i: nat)
    requires i < |parts| && parts[i].Raised?
    ensures ConcatAll(parts) == Raised
  {
  }

  lemma {:induction false} ConcatAllSnoc<T>(parts: seq<Outcome<seq<T>>>, p: Outcome<seq<T>>)
    requires ConcatAll(parts).Ok? && p.Ok?
    ensures ConcatAll(parts + [p]) == Ok(ConcatAll(parts).value + p.value)
  {
    if parts == [] {
      assert parts + [p] == [p];
      ConcatAllSingle(p);
      assert ConcatAll(parts).value + p.value == p.value;
    } else {
      assert (parts + [p])[0] == parts[0];
      assert (parts + [p])[1..] == parts[1..] + [p];
      ConcatAllSnoc(parts[1..], p);
      assert parts[0].value + (ConcatAll(parts[1..]).value + p.value) ==
             (parts[0].value + ConcatAll(parts[1..]).value) + p.value;
    }
  }

  /** An item of the joined result is an item of some part, and every item
      of every part is in the result. */
  lemma {:induction false} ConcatAllMembers<T>(parts: seq<Outcome<seq<T>>>, x: T)
    requires ConcatAll(parts).Ok?
    ensures x in ConcatAll(parts).value <==> exists i :: 0 <= i < |parts| && x in parts[i].value
  {
    if parts != [] {
      ConcatAllMembers(parts[1..], x);
      if exists i :: 0 <= i < |parts| && x in parts[i].value {
        var i :| 0 <= i < |parts| && x in parts[i].value;
        if i > 0 {
          assert parts[1..][i - 1] == parts[i];
        }
      }
      if x in ConcatAll(parts[1..]).value {
        var j :| 0 <= j < |parts[1..]| && x in parts[1..][j].value;
        assert parts[j + 1] == parts[1..][j];
      }
    }
  }

  /** Parts that are all empty join to nothing. */
  lemma {:induction false} ConcatAllEmpty<T>(parts: seq<Outcome<seq<T>>>)
    requires forall i :: 0 <= i < |parts| ==> parts[i] == Ok([])
    ensures ConcatAll(parts) == Ok([])
  {
    if parts != [] {
      assert forall i :: 0 <= i < |parts[1..]| ==> parts[1..][i] == parts[i + 1];
      ConcatAllEmpty(parts[1..]);
      assert parts[0].value + ConcatAll(parts[1..]).value == [];
    }
  }

  /** The first element, as `next(iter(xs), None)`. */
  function First<T>(xs: seq<T>): (r: Option<T>)
    ensures r.Some? <==> xs != []
    ensures r.Some? ==> r.value == xs[0]
  {
    if xs == [] then None else Some(xs[0])
  }
}

/** Python's `sorted(d.items())` for a dictionary with string keys: an
    insertion sort by key under Python's string order. */
module Sorting {
  import opened PyText

  predicate SortedByKey<V>(xs: seq<(string, V)>)
  {
    forall i, j :: 0 <= i < j < |xs| ==> !LexLess(xs[j].0, xs[i].0)
  }

  /** No key appears twice, as in a Python dictionary. */
  predicate UniqueKeys<V>(xs: seq<(string, V)>)
  {
    forall i, j :: 0 <= i < j < |xs| ==> xs[i].0 != xs[j].0
  }

  function Insert<V>(x: (string, V), xs: seq<(string, V)>): (r: seq<(string, V)>)
    requires SortedByKey(xs)
    ensures SortedByKey(r)
    ensures multiset(r) == multiset(xs) + multiset{x}
  {
    if xs == [] || !LexLess(xs[0].0, x.0) then
      FrontSorted(x, xs);
      [x] + xs
    else
      var rest := Insert(x, xs[1..]);
      assert xs == [xs[0]] + xs[1..];
      InsertedAbove(x, xs, rest);
      [xs[0]] + rest
  }

  /** An item no greater than the first of a sorted sequence can go in
      front of it. */
  lemma FrontSorted<V>(x: (string, V), xs: seq<(string, V)>)
    requires SortedByKey(xs) && (xs == [] || !LexLess(xs[0].0, x.0))
    ensures SortedByKey([x] + xs)
  {
    forall i, j | 0 <= i < j < |[x] + xs| ensures !LexLess(([x] + xs)[j].0, ([x] + xs)[i].0) {
      if i == 0 && j > 1 {
        if LexLess(xs[j - 1].0, x.0) {
          if LexLess(xs[j - 1].0, xs[0].0) {
          } else if xs[j - 1].0 == xs[0].0 {
          } else {
            LexLessTotal(xs[j - 1].0, xs[0].0);
            LexLessTransitive(xs[0].0, xs[j - 1].0, x.0);
          }
        }
      }
    }
  }

  /** The first item stays in front of the rest once a greater item is
      inserted into the rest. */
  lemma InsertedAbove<V>(x: (string, V), xs: seq<(string, V)>, rest: seq<(string, V)>)
    requires SortedByKey(xs) && xs != [] && LexLess(xs[0].0, x.0)
    requires SortedByKey(rest) && multiset(rest) == multiset(xs[1..]) + multiset{x}
    ensures SortedByKey([xs[0]] + rest)
  {
    forall j | 0 <= j < |rest| ensures !LexLess(rest[j].0, xs[0].0) {
      assert rest[j] in multiset(rest);
      if rest[j] == x {
        LexLessAsymmetric(xs[0].0, x.0);
      } else {
        assert rest[j] in multiset(xs[1..]);
        var k :| 0 <= k < |xs[1..]| && xs[1..][k] == rest[j];
        assert xs[k + 1] == rest[j];
      }
    }
  }

  /** `sorted(items)`: sorted by key and a permutation of the input. */
  function SortByKey<V>(xs: seq<(string, V)>): (r: seq<(string, V)>)
    ensures SortedByKey(r)
    ensures multiset(r) == multiset(xs)
  {
    if xs == [] then []
    else
      assert xs == [xs[0]] + xs[1..];
      Insert(xs[0], SortByKey(xs[1..]))
  }

  lemma {:induction false} InsertUnique<V>(x: (string, V), xs: seq<(string, V)>)
    requires SortedByKey(xs) && UniqueKeys(xs)
    requires forall i :: 0 <= i < |xs| ==> xs[i].0 != x.0
    ensures UniqueKeys(Insert(x, xs))
  {
    if xs == [] || !LexLess(xs[0].0, x.0) {
    } else {
      var rest := Insert(x, xs[1..]);
      InsertUnique(x, xs[1..]);
      assert Insert(x, xs) == [xs[0]] + rest;
      forall j | 0 <= j < |rest| ensures rest[j].0 != xs[0].0 {
        assert rest[j] in multiset(rest);
        if rest[j] != x {
          assert rest[j] in multiset(xs[1..]);
          var k :| 0 <= k < |xs[1..]| && xs[1..][k] == rest[j];
          assert xs[k + 1] == rest[j];
        }
      }
    }
  }

  /** Sorting a dictionary's items keeps every key unique. */
  lemma {:induction false} SortKeepsUnique<V>(xs: seq<(string, V)>)
    requires UniqueKeys(xs)
    ensures UniqueKeys(SortByKey(xs))
  {
    if xs != [] {
      var rest := SortByKey(xs[1..]);
      SortKeepsUnique(xs[1..]);
      forall i | 0 <= i < |rest| ensures rest[i].0 != xs[0].0 {
        assert rest[i] in multiset(rest);
        assert rest[i] in multiset(xs[1..]);
        var k :| 0 <= k < |xs[1..]| && xs[1..][k] == rest[i];
        assert xs[k + 1] == rest[i];
      }
      InsertUnique(xs[0], rest);
    }
  }

  /** Two sorted arrangements of the same unique-key items start alike. */
  lemma HeadsAgree<V>(a: seq<(string, V)>, b: seq<(string, V)>)
    requires SortedByKey(a) && SortedByKey(b) && UniqueKeys(a)
    requires multiset(a) == multiset(b) && a != []
    ensures b != [] && a[0] == b[0]
  {
    assert |a| == |multiset(a)| == |multiset(b)| == |b|;
    assert a[0] in multiset(b);
    assert b[0] in multiset(a);
    var i :| 0 <= i < |a| && a[i] == b[0];
    var j :| 0 <= j < |b| && b[j] == a[0];
    if i > 0 && j > 0 {
      LexLessTotal(a[0].0, b[0].0);
      assert false;
    }
  }

  /** Two sorted arrangements of the same items with unique keys are the
      same sequence. */
  lemma {:induction false} SortedUnique<V>(a: seq<(string, V)>, b: seq<(string, V)>)
    requires SortedByKey(a) && SortedByKey(b) && UniqueKeys(a)
    requires multiset(a) == multiset(b)
    ensures a == b
    decreases |a|
  {
    if a == [] {
      assert |b| == |multiset(b)| == 0;
    } else {
      HeadsAgree(a, b);
      TailMultiset(a);
      TailMultiset(b);
      SortedUnique(a[1..], b[1..]);
    }
  }

  lemma TailMultiset<T>(a: seq<T>)
    requires a != []
    ensures multiset(a[1..]) == multiset(a) - multiset{a[0]}
  {
    assert a == [a[0]] + a[1..];
  }

  /** Sorting a dictionary's items does not depend on their insertion order. */
  lemma SortIgnoresOrder<V>(p: seq<(string, V)>, q: seq<(string, V)>)
    requires UniqueKeys(p)
    requires multiset(p) == multiset(q)
    ensures SortByKey(p) == SortByKey(q)
  {
    SortKeepsUnique(p);
    SortedUnique(SortByKey(p), SortByKey(q));
  }
}
