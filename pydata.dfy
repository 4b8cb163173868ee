/** The dynamic data the compiler manipulates: the nested dictionaries, lists
    and scalars that come out of YAML documents and out of the knowledge base,
    together with the Python operations the compiler applies to them
    (`x[k]`, iteration, truthiness, `str(x)`, `d[k] = v`, `d.update(e)`) and
    the exceptions those operations raise. */
module PyData {
  import opened Text

  datatype Option<+T> = None | Some(value: T)

  /** The Python exceptions the modelled code can raise. */
  datatype Error =
    | KeyError(key: Value)
    | IndexError
    | TypeError
    | AttributeError
    | UnboundLocalError

  /** An operation either returns a value or raises an exception. */
  datatype Result<+T> = Ok(value: T) | Err(error: Error)
  {
    predicate IsFailure() { Err? }

    function PropagateFailure<U>(): Result<U>
      requires Err?
    {
      Err(error)
    }

    function Extract(): T
      requires Ok?
    {
      value
    }
  }

  /** A YAML/JSON-like Python value. Mappings keep their insertion order, as
      Python dictionaries do; their keys are strings. Floats are not part of
      the model. */
  datatype Value =
    | Null
    | Bool(b: bool)
    | Int(i: int)
    | Str(s: string)
    | List(items: seq<Value>)
    | Dict(entries: Entries)

  /** The items of a dictionary, in insertion order. */
  type Entries = seq<(string, Value)>

  // ---------------------------------------------------------------------
  // Ordered dictionaries
  // ---------------------------------------------------------------------

  function Keys<V>(d: seq<(string, V)>): (ks: seq<string>)
    ensures |ks| == |d|
    ensures forall i :: 0 <= i < |d| ==> ks[i] == d[i].0
  {
    seq(|d|, i requires 0 <= i < |d| => d[i].0)
  }

  predicate Distinct<T(==)>(xs: seq<T>)
  {
    forall i, j :: 0 <= i < j < |xs| ==> xs[i] != xs[j]
  }

  /** `d.get(k)`: the value stored under `k`. */
  function Lookup<V>(d: seq<(string, V)>, k: string): Option<V>
  {
    if d == [] then None
    else if d[0].0 == k then Some(d[0].1)
    else Lookup(d[1..], k)
  }

  /** A key is found exactly when it is one of the keys. */
  lemma {:induction false} LookupKeys<V>(d: seq<(string, V)>, k: string)
    ensures Lookup(d, k).Some? <==> k in Keys(d)
  {
    if d != [] {
      LookupKeys(d[1..], k);
      assert Keys(d) == [d[0].0] + Keys(d[1..]);
    }
  }

  /** `d[k] = v`: replaces the value of an existing key where it stands, or
      appends a new key at the end. */
  function Put<V>(d: seq<(string, V)>, k: string, v: V): seq<(string, V)>
  {
    if d == [] then [(k, v)]
    else if d[0].0 == k then [(k, v)] + d[1..]
    else [d[0]] + Put(d[1..], k, v)
  }

  /** `d[k] = v` with a new key `k` appends it, with its value. */
  lemma {:induction false} PutAppends<V>(d: seq<(string, V)>, k: string, v: V)
    ensures k !in Keys(d) ==> Put(d, k, v) == d + [(k, v)]
  {
    if d != [] && k !in Keys(d) {
      var t := d[1..];
      assert Keys(d) == [d[0].0] + Keys(t);
      PutAppends(t, k, v);
      assert d == [d[0]] + t;
    }
  }

  /** `d[k] = v` keeps the keys of `d` in their order and appends `k` when it
      is new, together with its value. */
  lemma {:induction false} PutKeys<V>(d: seq<(string, V)>, k: string, v: V)
    ensures Keys(Put(d, k, v)) == if k in Keys(d) then Keys(d) else Keys(d) + [k]
    ensures k !in Keys(d) ==> Put(d, k, v) == d + [(k, v)]
  {
    PutAppends(d, k, v);
    if d != [] {
      var t := d[1..];
      PutKeys(t, k, v);
      assert d == [d[0]] + t;
      KeysAppend([d[0]], t);
      if d[0].0 == k {
        KeysAppend([(k, v)], t);
      } else {
        KeysAppend([d[0]], Put(t, k, v));
        if k !in Keys(t) {
          assert [d[0].0] + (Keys(t) + [k]) == ([d[0].0] + Keys(t)) + [k];
        }
      }
    }
  }



  /** After `d[k] = v`, `k` maps to `v` and every other key is unaffected. */
  lemma {:induction false} PutLookup<V>(d: seq<(string, V)>, k: string, v: V, k': string)
    ensures Lookup(Put(d, k, v), k') == if k' == k then Some(v) else Lookup(d, k')
  {
    if d != [] && d[0].0 != k {
      PutLookup(d[1..], k, v, k');
    }
  }

  lemma {:induction false} KeysAppend<V>(a: seq<(string, V)>, b: seq<(string, V)>)
    ensures Keys(a + b) == Keys(a) + Keys(b)
  {
    assert |Keys(a + b)| == |Keys(a) + Keys(b)|;
    assert forall i :: 0 <= i < |a + b| ==> Keys(a + b)[i] == (a + b)[i].0;
  }

  lemma HeadTail<T>(xs: seq<T>)
    requires xs != []
    ensures xs == [xs[0]] + xs[1..]
  {
  }

  lemma AppendAssoc<T>(a: seq<T>, b: seq<T>, c: seq<T>)
    ensures (a + b) + c == a + (b + c)
  {
  }

  lemma DistinctAppend<T>(xs: seq<T>, ys: seq<T>)
    requires Distinct(xs) && Distinct(ys)
    requires forall y :: y in ys ==> y !in xs
    ensures Distinct(xs + ys)
  {
    forall i, j | 0 <= i < j < |xs + ys|
      ensures (xs + ys)[i] != (xs + ys)[j]
    {
      if i < |xs| && j >= |xs| {
        assert (xs + ys)[j] == ys[j - |xs|] && ys[j - |xs|] in ys;
      }
    }
  }

  /** In a dictionary with distinct keys, each item is what its key finds. */
  lemma {:induction false} LookupDistinct<V>(d: seq<(string, V)>, i: nat)
    requires Distinct(Keys(d)) && i < |d|
    ensures Lookup(d, d[i].0) == Some(d[i].1)
  {
    if i > 0 {
      assert Keys(d[1..]) == Keys(d)[1..];
      assert Keys(d)[0] != Keys(d)[i];
      LookupDistinct(d[1..], i - 1);
    }
  }

  /** A lookup in `a + b` finds `a`'s entry when `a` has the key, else `b`'s. */
  lemma {:induction false} LookupAppend<V>(a: seq<(string, V)>, b: seq<(string, V)>, k: string)
    ensures Lookup(a + b, k) == if k in Keys(a) then Lookup(a, k) else Lookup(b, k)
  {
    if a != [] {
      assert (a + b)[0] == a[0] && (a + b)[1..] == a[1..] + b;
      assert Keys(a) == [a[0].0] + Keys(a[1..]);
      LookupAppend(a[1..], b, k);
    } else {
      assert a + b == b;
    }
  }

  /** In a dictionary with distinct keys, the key of item `i` is new to the
      first `i` items. */
  lemma PrefixKeyFresh<V>(d: seq<(string, V)>, i: nat)
    requires Distinct(Keys(d)) && i < |d|
    ensures d[i].0 !in Keys(d[..i])
  {
    var ks := Keys(d[..i]);
    forall j | 0 <= j < i
      ensures ks[j] != d[i].0
    {
      assert ks[j] == Keys(d)[j] && d[i].0 == Keys(d)[i];
    }
  }

  /** Assigning the items of a dictionary with distinct keys one after the
      other rebuilds it. */
  lemma PutNext<V>(d: seq<(string, V)>, i: nat, k: string, v: V)
    requires Distinct(Keys(d)) && i < |d| && d[i] == (k, v)
    ensures Put(d[..i], k, v) == d[..i + 1]
  {
    assert d[..i + 1] == d[..i] + [d[i]];
    PrefixKeyFresh(d, i);
    PutKeys(d[..i], k, v);
  }

  /** `x in v`: key membership for a dictionary, item membership for a list,
      substring test for a string. Only strings are hashable keys here. */
  function Contains(v: Value, x: Value): Result<bool>
  {
    match v
    case Dict(es) => if x.List? || x.Dict? then Err(TypeError) else Ok(x.Str? && x.s in Keys(es))
    case List(xs) => Ok(x in xs)
    case Str(s) => if x.Str? then Ok(IsSubstring(x.s, s)) else Err(TypeError)
    case _ => Err(TypeError)
  }

  /** `p` occurs in `s` as a contiguous part. */
  predicate IsSubstring(p: string, s: string)
  {
    p <= s || (s != [] && IsSubstring(p, s[1..]))
  }

  /** `d.update(e)`: the items of `e` assigned one after the other. */
  function Update<V>(d: seq<(string, V)>, e: seq<(string, V)>): seq<(string, V)>
    decreases |e|
  {
    if e == [] then d else Update(Put(d, e[0].0, e[0].1), e[1..])
  }

  /** After `d.update(e)`, the keys of `e` carry `e`'s values and every other
      key keeps its value from `d`. */
  lemma {:induction false} UpdateLookup<V>(d: seq<(string, V)>, e: seq<(string, V)>, k: string)
    requires Distinct(Keys(e))
    ensures Lookup(Update(d, e), k) == if k in Keys(e) then Lookup(e, k) else Lookup(d, k)
    decreases |e|
  {
    if e != [] {
      var d' := Put(d, e[0].0, e[0].1);
      PutLookup(d, e[0].0, e[0].1, k);
      assert Keys(e[1..]) == Keys(e)[1..];
      assert Distinct(Keys(e[1..]));
      UpdateLookup(d', e[1..], k);
      if k == e[0].0 {
        assert k !in Keys(e[1..]);
      }
    }
  }

  // ---------------------------------------------------------------------
  // Subscription, iteration, truthiness
  // ---------------------------------------------------------------------

  /** Python's position for index `i` into a sequence of length `n`, counting
      from the end when `i` is negative. */
  function Position(n: nat, i: int): (r: Option<nat>)
    ensures r.Some? <==> -(n as int) <= i < n
    ensures r.Some? ==> r.value < n && (i >= 0 ==> r.value == i) && (i < 0 ==> r.value == n + i)
  {
    if 0 <= i < n then Some(i) else if -(n as int) <= i < 0 then Some(n + i) else None
  }

  /** The integer a list index denotes (`True` and `False` index as 1 and 0). */
  function IndexInt(k: Value): int
    requires k.Int? || k.Bool?
  {
    if k.Int? then k.i else if k.b then 1 else 0
  }

  /** `v[k]` with the exception Python raises when it fails. */
  function Subscript(v: Value, k: Value): Result<Value>
  {
    match v
    case Dict(es) =>
      if k.Str? then
        match Lookup(es, k.s)
        case Some(x) => Ok(x)
        case None => Err(KeyError(k))
      else if k.List? || k.Dict? then Err(TypeError)   // unhashable key
      else Err(KeyError(k))
    case List(xs) =>
      if k.Int? || k.Bool? then
        match Position(|xs|, IndexInt(k))
        case Some(p) => Ok(xs[p])
        case None => Err(IndexError)
      else Err(TypeError)
    case Str(s) =>
      if k.Int? || k.Bool? then
        match Position(|s|, IndexInt(k))
        case Some(p) => Ok(Str([s[p]]))
        case None => Err(IndexError)
      else Err(TypeError)
    case _ => Err(TypeError)
  }

  /** A mapping finds the value of a present key and raises `KeyError` for a
      missing one; a list accepts an index from `-len` to `len - 1`, counting
      negative ones from the end, and raises `IndexError` beyond; scalars
      cannot be subscripted. */
  lemma SubscriptCases(v: Value, k: Value)
    ensures v.Dict? && k.Str? ==> (Lookup(v.entries, k.s).Some? <==> k.s in Keys(v.entries))
    ensures v.Dict? && k.Str? ==>
              Subscript(v, k) == if k.s in Keys(v.entries) then Ok(Lookup(v.entries, k.s).value) else Err(KeyError(k))
    ensures v.List? && k.Int? ==>
              && (Subscript(v, k).Ok? <==> -|v.items| <= k.i < |v.items|)
              && (0 <= k.i < |v.items| ==> Subscript(v, k) == Ok(v.items[k.i]))
              && (-|v.items| <= k.i < 0 ==> Subscript(v, k) == Ok(v.items[|v.items| + k.i]))
              && (k.i < -|v.items| || |v.items| <= k.i ==> Subscript(v, k) == Err(IndexError))
    ensures v.Null? || v.Bool? || v.Int? ==> Subscript(v, k) == Err(TypeError)
  {
    if v.Dict? && k.Str? {
      LookupKeys(v.entries, k.s);
    }
  }

  /** `v[key]` for a string key. */
  function Get(v: Value, key: string): Result<Value>
  {
    if !v.Dict? then Err(TypeError)
    else match Lookup(v.entries, key)
      case Some(x) => Ok(x)
      case None => Err(KeyError(Str(key)))
  }

  /** Only a mapping can be read with a string key: it finds the key's value
      or raises `KeyError`; anything else raises `TypeError`. */
  lemma GetCases(v: Value, key: string)
    ensures v.Dict? ==> (Lookup(v.entries, key).Some? <==> key in Keys(v.entries))
    ensures v.Dict? && key in Keys(v.entries) ==> Get(v, key) == Ok(Lookup(v.entries, key).value)
    ensures v.Dict? && key !in Keys(v.entries) ==> Get(v, key) == Err(KeyError(Str(key)))
    ensures !v.Dict? ==> Get(v, key) == Err(TypeError)
  {
    if v.Dict? {
      LookupKeys(v.entries, key);
    }
  }

  /** The values `for x in v` visits: list items, dictionary keys, or the
      one-character strings of a string. */
  function Iterate(v: Value): Result<seq<Value>>
  {
    match v
    case List(xs) => Ok(xs)
    case Dict(es) => Ok(KeyValues(es))
    case Str(s) => Ok(Chars(s))
    case _ => Err(TypeError)
  }

  function KeyValues(es: Entries): (r: seq<Value>)
    ensures |r| == |es| && forall i :: 0 <= i < |es| ==> r[i] == Str(es[i].0)
  {
    seq(|es|, i requires 0 <= i < |es| => Str(es[i].0))
  }

  function Chars(s: string): (r: seq<Value>)
    ensures |r| == |s| && forall i :: 0 <= i < |s| ==> r[i] == Str([s[i]])
  {
    seq(|s|, i requires 0 <= i < |s| => Str([s[i]]))
  }

  /** `[f(x) for x in xs]` where `f` may raise: the items are computed in
      order and the first exception ends the comprehension. */
  function MapResult<T, U>(xs: seq<T>, f: T -> Result<U>): Result<seq<U>>
    decreases |xs|
  {
    if xs == [] then Ok([])
    else
      var ys :- MapResult(xs[..|xs| - 1], f);
      var y :- f(xs[|xs| - 1]);
      Ok(ys + [y])
  }

  /** A comprehension that succeeds has one result per item. */
  lemma {:induction false} MapResultLength<T, U>(xs: seq<T>, f: T -> Result<U>)
    ensures MapResult(xs, f).Ok? ==> |MapResult(xs, f).value| == |xs|
    decreases |xs|
  {
    if xs != [] {
      MapResultLength(xs[..|xs| - 1], f);
    }
  }

  /** The comprehension succeeds exactly when `f` succeeds on every item,
      and then holds one result per item, in order. */
  lemma {:induction false} MapResultShape<T, U>(xs: seq<T>, f: T -> Result<U>)
    ensures MapResult(xs, f).Ok? <==> forall i :: 0 <= i < |xs| ==> f(xs[i]).Ok?
    ensures MapResult(xs, f).Ok? ==>
              |MapResult(xs, f).value| == |xs| && forall i :: 0 <= i < |xs| ==> f(xs[i]) == Ok(MapResult(xs, f).value[i])
    decreases |xs|
  {
    if xs != [] {
      var init := xs[..|xs| - 1];
      MapResultShape(init, f);
      assert forall i :: 0 <= i < |init| ==> init[i] == xs[i];
    }
  }

  /** One more item: the comprehension over `xs[..i + 1]` extends the one
      over `xs[..i]`, or stops with its exception. */
  lemma MapResultNext<T, U>(xs: seq<T>, f: T -> Result<U>, i: nat)
    requires i < |xs|
    ensures MapResult(xs[..i + 1], f) ==
            match MapResult(xs[..i], f)
            case Err(e) => Err(e)
            case Ok(ys) => if f(xs[i]).Err? then Err(f(xs[i]).error) else Ok(ys + [f(xs[i]).value])
  {
    assert xs[..i + 1][..i] == xs[..i];
  }

  /** Once an item raises, the rest of the comprehension is never computed:
      the whole comprehension raises the same exception. */
  lemma {:induction false} MapResultStops<T, U>(xs: seq<T>, f: T -> Result<U>, i: nat)
    requires i <= |xs| && MapResult(xs[..i], f).Err?
    ensures MapResult(xs, f) == MapResult(xs[..i], f)
    decreases |xs| - i
  {
    if i < |xs| {
      MapResultNext(xs, f, i);
      MapResultStops(xs, f, i + 1);
    } else {
      assert xs[..i] == xs;
    }
  }

  /** Python truthiness (`if v:`). */
  predicate Truthy(v: Value)
  {
    match v
    case Null => false
    case Bool(b) => b
    case Int(i) => i != 0
    case Str(s) => s != []
    case List(xs) => xs != []
    case Dict(es) => es != []
  }

  // ---------------------------------------------------------------------
  // Rendering (`str(v)`, as in an f-string)
  // ---------------------------------------------------------------------

  function IntToString(i: int): string
  {
    if i < 0 then "-" + NatToString(-i) else NatToString(i)
  }

  /** `str(v)`. Strings render as themselves; containers render with a
      simplified `repr` that quotes strings without escaping. */
  function Format(v: Value): (r: string)
    ensures v.Str? ==> r == v.s
  {
    match v
    case Str(s) => s
    case _ => Repr(v)
  }

  function Repr(v: Value): string
  {
    match v
    case Null => "None"
    case Bool(b) => if b then "True" else "False"
    case Int(i) => IntToString(i)
    case Str(s) => "'" + s + "'"
    case List(xs) => "[" + ReprItems(xs) + "]"
    case Dict(es) => "{" + ReprEntries(es) + "}"
  }

  function ReprItems(xs: seq<Value>): string
    decreases xs
  {
    if xs == [] then []
    else if |xs| == 1 then Repr(xs[0])
    else Repr(xs[0]) + ", " + ReprItems(xs[1..])
  }

  function ReprEntries(es: Entries): string
    decreases es
  {
    if es == [] then []
    else
      assert es[0] in es && es[0].1 < es[0];
      var item := "'" + es[0].0 + "': " + Repr(es[0].1);
      if |es| == 1 then item else item + ", " + ReprEntries(es[1..])
  }
}
