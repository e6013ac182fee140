/** The dynamically typed values the service passes around: whatever
    `json.loads` produces, and the dictionaries the handlers build. */
module JsonValue {
  import opened Text

  /** A JSON value. Numbers are integers; dictionary key order is not kept. */
  datatype Json =
    | Null
    | Bool(b: bool)
    | Num(n: int)
    | Str(s: string)
    | Arr(items: seq<Json>)
    | Obj(fields: map<string, Json>)

  /** Python truthiness: `None`, `False`, `0`, `""`, `[]` and `{}` are false. */
  predicate Truthy(v: Json) {
    match v
    case Null => false
    case Bool(b) => b
    case Num(n) => n != 0
    case Str(s) => s != []
    case Arr(a) => a != []
    case Obj(m) => m != map[]
  }

  /** Python `a or b`. */
  function Or(a: Json, b: Json): Json {
    if Truthy(a) then a else b
  }

  /** Python `d.get(k)` on a dictionary: `None` when the key is absent. */
  function Get(m: map<string, Json>, k: string): Json {
    if k in m then m[k] else Null
  }

  /** Python `d.get(k, default)`. */
  function GetOr(m: map<string, Json>, k: string, default: Json): Json {
    if k in m then m[k] else default
  }

  /** A dictionary with `k` set to `x` unless `k` is already a key. */
  function Put(m: map<string, Json>, k: string, x: Json): (r: map<string, Json>)
    ensures r.Keys == m.Keys + {k}
    ensures forall k' :: k' in m ==> r[k'] == m[k']
    ensures k !in m ==> r[k] == x
  {
    if k in m then m else m[k := x]
  }

  /** Python `str(v)` as used inside f-strings; lists and dictionaries are
      rendered as a fixed marker. */
  function Show(v: Json): string {
    match v
    case Null => "None"
    case Bool(b) => if b then "True" else "False"
    case Num(n) => IntToString(n)
    case Str(s) => s
    case Arr(_) => "[...]"
    case Obj(_) => "{...}"
  }

  /** `Str(s)` for each string of `ss`. */
  function Strs(ss: seq<string>): (r: seq<Json>)
    ensures |r| == |ss| && forall k :: 0 <= k < |ss| ==> r[k] == Str(ss[k])
  {
    if |ss| == 0 then [] else [Str(ss[0])] + Strs(ss[1..])
  }
}

/** The part of Python's semantics that the handlers' default-filling loops
    rely on when the parsed value does not have the expected shape: `in`,
    item assignment and iteration, with the exceptions they raise. */
module PyOps {
  import opened Text
  import opened JsonValue

  datatype Exception = TypeError | AttributeError | KeyError | ValueError

  datatype Result<+T> = Ok(value: T) | Raise(exc: Exception) {
    predicate IsFailure() {
      Raise?
    }

    function PropagateFailure<U>(): Result<U>
      requires Raise?
    {
      Raise(exc)
    }

    function Extract(): T
      requires Ok?
    {
      value
    }
  }

  /** `key in v`: a key test on a dictionary, an element test on a list, a
      substring test on a string, and a `TypeError` on anything else. */
  function In(key: string, v: Json): (r: Result<bool>)
    ensures r.Raise? ==> r.exc == TypeError
    ensures v.Obj? ==> r == Ok(key in v.fields)
    ensures v.Arr? ==> r == Ok(Str(key) in v.items)
  {
    match v
    case Obj(m) => Ok(key in m)
    case Arr(a) => Ok(Str(key) in a)
    case Str(s) => Ok(Contains(s, key))
    case _ => Raise(TypeError)
  }

  /** `v[key] = x`: only a dictionary accepts a string key. */
  function SetItem(v: Json, key: string, x: Json): Result<Json> {
    match v
    case Obj(m) => Ok(Obj(m[key := x]))
    case _ => Raise(TypeError)
  }

  /** `if key not in v: v[key] = x`. */
  function SetDefault(v: Json, key: string, x: Json): (r: Result<Json>)
    ensures v.Obj? ==> r == Ok(Obj(Put(v.fields, key, x)))
    ensures !v.Obj? && r.Ok? ==> r.value == v
    ensures !v.Obj? ==> (r.Ok? <==> (v.Str? && Contains(v.s, key)) || (v.Arr? && Str(key) in v.items))
  {
    var present :- In(key, v);
    if present then Ok(v) else SetItem(v, key, x)
  }

  /** `for x in v`: the elements of a list, the characters of a string;
      iterating a dictionary yields its keys, modelled separately. */
  function Iterate(v: Json): Result<seq<Json>>
    requires !v.Obj?
  {
    match v
    case Arr(a) => Ok(a)
    case Str(s) => Ok(seq(|s|, k requires 0 <= k < |s| => Str([s[k]])))
    case _ => Raise(TypeError)
  }

  /** `v[key]`: a dictionary lookup, `KeyError` when the key is missing, and
      a `TypeError` on any other value indexed by a string. */
  function GetItem(v: Json, key: string): (r: Result<Json>)
    ensures r.Ok? <==> v.Obj? && key in v.fields
    ensures r.Ok? ==> r.value == v.fields[key]
  {
    match v
    case Obj(m) => if key in m then Ok(m[key]) else Raise(KeyError)
    case _ => Raise(TypeError)
  }

  /** `del v[key]`. */
  function DelItem(v: Json, key: string): (r: Result<Json>)
    ensures r.Ok? <==> v.Obj? && key in v.fields
    ensures r.Ok? ==> r.value == Obj(v.fields - {key})
  {
    match v
    case Obj(m) => if key in m then Ok(Obj(m - {key})) else Raise(KeyError)
    case _ => Raise(TypeError)
  }

  /** `if key not in v or not v[key]: v[key] = x`. */
  function SetIfFalsy(v: Json, key: string, x: Json): (r: Result<Json>)
    ensures v.Obj? ==> r == Ok(Obj(if key in v.fields && Truthy(v.fields[key]) then v.fields else v.fields[key := x]))
    ensures !v.Obj? ==> r.Raise?
  {
    var present :- In(key, v);
    if !present then SetItem(v, key, x)
    else
      var current :- GetItem(v, key);
      if Truthy(current) then Ok(v) else SetItem(v, key, x)
  }

  /** `for j, x in enumerate(xs): <step>`, where the step may raise: the
      first exception ends the loop, otherwise every element is replaced by
      what its step made of it. */
  function MapEntries(xs: seq<Json>, f: (Json, nat) -> Result<Json>): (r: Result<seq<Json>>)
    ensures r.Ok? ==> |r.value| == |xs|
  {
    if |xs| == 0 then Ok([])
    else
      var front :- MapEntries(xs[..|xs| - 1], f);
      var last :- f(xs[|xs| - 1], |xs| - 1);
      Ok(front + [last])
  }

  /** The loop succeeds exactly when every step does, and then holds each
      step's result at its index. */
  lemma {:induction false} MapEntriesOk(xs: seq<Json>, f: (Json, nat) -> Result<Json>)
    ensures MapEntries(xs, f).Ok? <==> forall j :: 0 <= j < |xs| ==> f(xs[j], j).Ok?
    ensures MapEntries(xs, f).Ok? ==> forall j :: 0 <= j < |xs| ==> MapEntries(xs, f).value[j] == f(xs[j], j).value
    decreases |xs|
  {
    if |xs| > 0 {
      var n := |xs| - 1;
      var front := xs[..n];
      MapEntriesOk(front, f);
      assert forall j :: 0 <= j < n ==> front[j] == xs[j];
    }
  }

  /** Once a prefix of the loop has raised, the whole loop has raised the
      same exception. */
  lemma {:induction false} MapEntriesPrefixRaises(xs: seq<Json>, n: nat, f: (Json, nat) -> Result<Json>)
    requires n <= |xs| && MapEntries(xs[..n], f).Raise?
    ensures MapEntries(xs, f) == MapEntries(xs[..n], f)
    decreases |xs| - n
  {
    if n < |xs| {
      var m := n + 1;
      assert xs[..m][..n] == xs[..n];
      MapEntriesPrefixRaises(xs, m, f);
    } else {
      assert xs[..n] == xs;
    }
  }

  /** `for x in v: <step>` over any value: a list is mapped; other values go
      through `Iterate`, and are left as they are when no step raises.
      Iterating a dictionary yields its keys, which are strings: the model
      lets the dictionary through when every key passes the step at index 0
      (the steps used here treat a string the same at every index) and
      otherwise reports `TypeError`, since key order is not kept. */
  function ForEach(v: Json, f: (Json, nat) -> Result<Json>): (r: Result<Json>)
    ensures r.Ok? && !v.Arr? ==> r.value == v
    ensures r.Ok? && v.Arr? ==> r.value.Arr? && |r.value.items| == |v.items|
  {
    match v
    case Arr(a) =>
      var r :- MapEntries(a, f);
      Ok(Arr(r))
    case Obj(m) =>
      if forall k | k in m :: f(Str(k), 0).Ok? then Ok(v) else Raise(TypeError)
    case _ =>
      var xs :- Iterate(v);
      var _ :- MapEntries(xs, f);
      Ok(v)
  }

  /** The loop over a one-element list. */
  lemma MapEntriesOne(x: Json, f: (Json, nat) -> Result<Json>)
    ensures f(x, 0).Ok? ==> MapEntries([x], f) == Ok([f(x, 0).value])
    ensures f(x, 0).Raise? ==> MapEntries([x], f) == Raise(f(x, 0).exc)
  {
    assert [x][..0] == [];
    assert MapEntries([x][..0], f) == Ok([]);
    assert [x][|[x]| - 1] == x;
    if f(x, 0).Ok? {
      assert [] + [f(x, 0).value] == [f(x, 0).value];
    }
  }

  /** One more step of the loop. */
  lemma MapEntriesSnoc(xs: seq<Json>, j: nat, f: (Json, nat) -> Result<Json>)
    requires j < |xs| && MapEntries(xs[..j], f).Ok?
    ensures MapEntries(xs[..j + 1], f) ==
              match f(xs[j], j)
              case Raise(e) => Raise(e)
              case Ok(x) => Ok(MapEntries(xs[..j], f).value + [x])
  {
    assert xs[..j + 1][..j] == xs[..j];
  }

  /** One step of the loop that replaces element `j` in place. */
  lemma MapEntriesReplace(xs: seq<Json>, items: seq<Json>, j: nat, v: Json, f: (Json, nat) -> Result<Json>)
    requires j < |xs| == |items|
    requires MapEntries(xs[..j], f) == Ok(items[..j]) && items[j..] == xs[j..]
    requires f(xs[j], j) == Ok(v)
    ensures MapEntries(xs[..j + 1], f) == Ok(items[j := v][..j + 1])
    ensures items[j := v][j + 1..] == xs[j + 1..]
  {
    MapEntriesSnoc(xs, j, f);
    assert items[j := v][..j + 1] == items[..j] + [v];
    assert items[j := v][j + 1..] == items[j + 1..];
    assert items[j + 1..] == items[j..][1..] == xs[j..][1..] == xs[j + 1..];
  }

  /** The loop `for j, x in enumerate(xs)` over a list, replacing each
      element in place by what its step made of it and stopping at the
      first exception. */
  method MapLoop(xs: seq<Json>, f: (Json, nat) -> Result<Json>) returns (r: Result<seq<Json>>)
    ensures r == MapEntries(xs, f)
  {
    var items := xs;
    var j := 0;
    while j < |items|
      invariant 0 <= j <= |items| == |xs|
      invariant MapEntries(xs[..j], f) == Ok(items[..j])
      invariant items[j..] == xs[j..]
    {
      assert items[j] == xs[j];
      var step := f(items[j], j);
      if step.Raise? {
        MapEntriesSnoc(xs, j, f);
        MapEntriesPrefixRaises(xs, j + 1, f);
        return Raise(step.exc);
      }
      MapEntriesReplace(xs, items, j, step.value, f);
      items := items[j := step.value];
      j := j + 1;
    }
    assert xs[..j] == xs && items[..j] == items;
    return Ok(items);
  }

  /** The loop `for x in v` over any value. */
  method ForEachLoop(v: Json, f: (Json, nat) -> Result<Json>) returns (r: Result<Json>)
    ensures r == ForEach(v, f)
  {
    if v.Arr? {
      var items :- MapLoop(v.items, f);
      return Ok(Arr(items));
    } else if v.Obj? {
      if forall k | k in v.fields :: f(Str(k), 0).Ok? {
        return Ok(v);
      }
      return Raise(TypeError);
    }
    var xs :- Iterate(v);
    var _ :- MapLoop(xs, f);
    return Ok(v);
  }

}
