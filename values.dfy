/** Python values as the Salt renderer hands them to the stage parser, and the
    few pieces of Python runtime behaviour the parser relies on: truthiness,
    the `in` operator, subscripting, iteration and insertion-ordered dicts. */
module Values {

  datatype Option<T> = None | Some(value: T)

  /** The exceptions the stage parser can end with. */
  datatype Error =
    | AssertionFailed        // a failed `assert` in the parser itself
    | TypeError              // a TypeError or AttributeError raised by the Python runtime
    | OrchestrationNotFound  // no .sls file backs a state name
    | RecursionLimit         // the interpreter's recursion limit was reached

  datatype Result<T> = Ok(value: T) | Err(error: Error)

  /** A loop over computations that may raise, stopped by the first one that
      does: the values in order, or that first exception. */
  function Collect<T>(outs: seq<Result<T>>): (r: Result<seq<T>>)
    ensures r.Ok? ==> |r.value| == |outs|
  {
    if outs == [] then Ok([])
    else
      match Collect(outs[..|outs| - 1])
      case Err(e) => Err(e)
      case Ok(vs) =>
        match outs[|outs| - 1]
        case Err(e) => Err(e)
        case Ok(v) => Ok(vs + [v])
  }

  /** One more iteration of the loop. */
  lemma CollectSnoc<T>(outs: seq<Result<T>>, x: Result<T>)
    ensures Collect(outs + [x]) ==
              match Collect(outs)
              case Err(e) => Err(e)
              case Ok(vs) => (match x case Err(e) => Err(e) case Ok(v) => Ok(vs + [v]))
  {
    assert (outs + [x])[..|outs|] == outs;
  }

  /** Two loops in a row: the second runs only if the first succeeds. */
  lemma {:induction false} CollectConcat<T>(xs: seq<Result<T>>, ys: seq<Result<T>>)
    ensures Collect(xs + ys) ==
              match Collect(xs)
              case Err(e) => Err(e)
              case Ok(vs) => (match Collect(ys) case Err(e) => Err(e) case Ok(ws) => Ok(vs + ws))
  {
    if ys == [] {
      assert xs + ys == xs;
      if Collect(xs).Ok? {
        assert Collect(xs).value + [] == Collect(xs).value;
      }
    } else {
      var n := |ys| - 1;
      CollectConcat(xs, ys[..n]);
      assert xs + ys == (xs + ys[..n]) + [ys[n]];
      CollectSnoc(xs + ys[..n], ys[n]);
      assert ys == ys[..n] + [ys[n]];
      CollectSnoc(ys[..n], ys[n]);
      if Collect(xs).Ok? && Collect(ys).Ok? {
        var vs, ws := Collect(xs).value, Collect(ys[..n]).value;
        assert vs + ws + [ys[n].value] == vs + (ws + [ys[n].value]);
      }
    }
  }

  /** The loop succeeds with `vs` exactly when every computation succeeds,
      the `k`-th with `vs[k]`. */
  lemma {:induction false} CollectExactly<T>(outs: seq<Result<T>>, vs: seq<T>)
    ensures Collect(outs) == Ok(vs) <==> |vs| == |outs| && forall k :: 0 <= k < |outs| ==> outs[k] == Ok(vs[k])
  {
    if outs != [] && |vs| == |outs| {
      var n := |outs| - 1;
      CollectExactly(outs[..n], vs[..n]);
      assert vs == vs[..n] + [vs[n]];
    }
  }

  /** A computation that raises after only successes ends the loop with its
      exception. */
  lemma {:induction false} CollectRaisesAt<T>(outs: seq<Result<T>>, k: nat)
    requires k < |outs| && outs[k].Err?
    requires forall j :: 0 <= j < k ==> outs[j].Ok?
    ensures Collect(outs) == Err(outs[k].error)
  {
    var n := |outs| - 1;
    if k < n {
      CollectRaisesAt(outs[..n], k);
    } else {
      var vs := seq(n, j requires 0 <= j < n => outs[j].value);
      CollectExactly(outs[..n], vs);
    }
  }

  /** A rendered YAML value. A mapping keeps its insertion order, as a Python
      dict does; its keys are strings. */
  datatype Value =
    | Null
    | Bool(b: bool)
    | Int(i: int)
    | Str(s: string)
    | List(items: seq<Value>)
    | Dict(entries: seq<(string, Value)>)

  /** Python's truth test (`if v:`). */
  predicate Truthy(v: Value)
  {
    match v
    case Null => false
    case Bool(b) => b
    case Int(i) => i != 0
    case Str(s) => s != ""
    case List(xs) => xs != []
    case Dict(es) => es != []
  }

  function Keys(es: seq<(string, Value)>): seq<string>
  {
    seq(|es|, i requires 0 <= i < |es| => es[i].0)
  }

  predicate NoDuplicates(ks: seq<string>)
  {
    forall i, j :: 0 <= i < j < |ks| ==> ks[i] != ks[j]
  }

  /** A Python dict never holds a key twice. */
  predicate DistinctKeys(es: seq<(string, Value)>)
  {
    NoDuplicates(Keys(es))
  }

  /** `d[k]` when `k in d`: the value of the first entry with key `k`. */
  function Lookup(es: seq<(string, Value)>, k: string): Option<Value>
  {
    if es == [] then None
    else if es[0].0 == k then Some(es[0].1)
    else Lookup(es[1..], k)
  }

  /** A lookup finds nothing exactly when no entry has the key, and
      otherwise finds the value of the first entry that has it. */
  lemma {:induction false} LookupFirst(es: seq<(string, Value)>, k: string)
    ensures Lookup(es, k).None? <==> k !in Keys(es)
    ensures Lookup(es, k).Some? ==>
              exists i :: 0 <= i < |es| && es[i] == (k, Lookup(es, k).value) && k !in Keys(es)[..i]
  {
    if es == [] {
      assert Keys(es) == [];
    } else if es[0].0 == k {
      assert Keys(es)[0] == k && Keys(es)[..0] == [];
    } else {
      LookupFirst(es[1..], k);
      assert Keys(es) == [es[0].0] + Keys(es[1..]);
      if Lookup(es, k).Some? {
        var i :| 0 <= i < |es| - 1 && es[1..][i] == (k, Lookup(es, k).value) && k !in Keys(es[1..])[..i];
        assert Keys(es)[..i + 1] == [es[0].0] + Keys(es[1..])[..i];
      }
    }
  }

  /** The value under `k`, or Python's `None` when the key is absent. */
  function Get(es: seq<(string, Value)>, k: string): Value
  {
    match Lookup(es, k)
    case Some(v) => v
    case None => Null
  }

  /** `d[k] = v`: an existing key keeps its position, a new key goes last. */
  function Set(es: seq<(string, Value)>, k: string, v: Value): (r: seq<(string, Value)>)
    ensures Keys(r) == if k in Keys(es) then Keys(es) else Keys(es) + [k]
  {
    if es == [] then [(k, v)]
    else
      assert es == [es[0]] + es[1..];
      KeysCons(es[0], es[1..]);
      if es[0].0 == k then
        KeysCons((k, v), es[1..]);
        [(k, v)] + es[1..]
      else
        var t := Set(es[1..], k, v);
        KeysCons(es[0], t);
        [es[0]] + t
  }

  lemma KeysCons(e: (string, Value), es: seq<(string, Value)>)
    ensures Keys([e] + es) == [e.0] + Keys(es)
  {
  }

  /** After `d[k] = v`, `d[k]` is `v` and every other key reads as before. */
  lemma {:induction false} SetLookup(es: seq<(string, Value)>, k: string, v: Value, k': string)
    ensures Lookup(Set(es, k, v), k') == if k' == k then Some(v) else Lookup(es, k')
  {
    if es != [] && es[0].0 != k {
      SetLookup(es[1..], k, v, k');
      var r := Set(es, k, v);
      assert r[1..] == Set(es[1..], k, v);
    }
  }

  lemma SetKeepsKeysDistinct(es: seq<(string, Value)>, k: string, v: Value)
    requires DistinctKeys(es)
    ensures DistinctKeys(Set(es, k, v))
  {
    var ks := Keys(es);
    if k !in ks {
      assert forall i :: 0 <= i < |ks| ==> (ks + [k])[i] == ks[i];
    }
  }

  /** `s in t` for strings: `s` occurs in `t` as a contiguous run. */
  predicate IsSubstring(s: string, t: string)
    decreases |t|
  {
    (|s| <= |t| && t[..|s|] == s) || (t != [] && IsSubstring(s, t[1..]))
  }

  /** Python's `key in container`, which raises TypeError on a scalar. */
  function Contains(container: Value, key: string): (r: Result<bool>)
    ensures r.Err? <==> !(container.Dict? || container.List? || container.Str?)
  {
    match container
    case Dict(es) => Ok(key in Keys(es))
    case List(xs) => Ok(Str(key) in xs)
    case Str(s) => Ok(IsSubstring(key, s))
    case _ => Err(TypeError)
  }

  /** `for x in v`: a dict yields its keys, a string its characters. */
  function Iterate(v: Value): (r: Result<seq<Value>>)
    ensures r.Err? <==> !(v.Dict? || v.List? || v.Str?)
    ensures v.List? ==> r == Ok(v.items)
  {
    match v
    case Dict(es) => Ok(seq(|es|, i requires 0 <= i < |es| => Str(es[i].0)))
    case List(xs) => Ok(xs)
    case Str(s) => Ok(seq(|s|, i requires 0 <= i < |s| => Str([s[i]])))
    case _ => Err(TypeError)
  }

  /** The list comprehension `[x for x in xs if key in x]`. It evaluates the
      test on every element, so a scalar anywhere in the list raises. */
  function Matching(xs: seq<Value>, key: string): (r: Result<seq<Value>>)
    ensures r.Err? ==> r.error == TypeError
  {
    if xs == [] then Ok([])
    else
      match Contains(xs[0], key)
      case Err(e) => Err(e)
      case Ok(hit) =>
        match Matching(xs[1..], key)
        case Err(e) => Err(e)
        case Ok(ms) => Ok(if hit then [xs[0]] + ms else ms)
  }

  /** The comprehension raises exactly when some element is a scalar; it
      is empty exactly when no element holds the key, and otherwise starts
      with the first element that does. */
  lemma {:induction false} MatchingFirst(xs: seq<Value>, key: string)
    ensures Matching(xs, key).Err? <==> exists i :: 0 <= i < |xs| && Contains(xs[i], key).Err?
    ensures Matching(xs, key).Ok? && Matching(xs, key).value == [] ==>
              forall i :: 0 <= i < |xs| ==> Contains(xs[i], key) == Ok(false)
    ensures Matching(xs, key).Ok? && Matching(xs, key).value != [] ==>
              exists i :: 0 <= i < |xs| && xs[i] == Matching(xs, key).value[0] &&
                          Contains(xs[i], key) == Ok(true) &&
                          forall j :: 0 <= j < i ==> Contains(xs[j], key) == Ok(false)
  {
    if xs != [] {
      MatchingFirst(xs[1..], key);
      assert forall i :: 1 <= i < |xs| ==> xs[i] == xs[1..][i - 1];
      if Contains(xs[0], key).Ok? && Matching(xs[1..], key).Ok? && !Contains(xs[0], key).value &&
         Matching(xs, key).value != [] {
        var i :| 0 <= i < |xs| - 1 && xs[1..][i] == Matching(xs, key).value[0] &&
                 Contains(xs[1..][i], key) == Ok(true) &&
                 forall j :: 0 <= j < i ==> Contains(xs[1..][j], key) == Ok(false);
        assert xs[i + 1] == Matching(xs, key).value[0];
      }
    }
  }

  /** `SaltStep.get_arg`: `args` is either a dict or a list of one-key dicts.
      Any other shape fails the parser's own assertion; an absent key gives
      `None`. */
  function GetArg(args: Value, key: string): (r: Result<Value>)
    ensures r == Err(AssertionFailed) <==> !(args.Dict? || args.List?)
  {
    match args
    case Dict(es) => Ok(Get(es, key))
    case List(xs) =>
      (match Matching(xs, key)
       case Err(e) => Err(e)
       case Ok(ms) =>
         if ms == [] then Ok(Null)
         else if ms[0].Dict? then Ok(Get(ms[0].entries, key))
         else Err(TypeError))
    case _ => Err(AssertionFailed)
  }

  /** For dict arguments `get_arg` is a plain lookup that defaults to `None`. */
  lemma GetArgOfDict(es: seq<(string, Value)>, key: string)
    ensures key in Keys(es) ==>
              exists i :: 0 <= i < |es| && es[i].0 == key && GetArg(Dict(es), key) == Ok(es[i].1)
    ensures key !in Keys(es) ==> GetArg(Dict(es), key) == Ok(Null)
  {
    LookupFirst(es, key);
  }

  /** For the usual argument shape, a list of dicts, `get_arg` returns the
      value from the first dict holding the key, or `None` when none does. */
  lemma {:induction false} GetArgOfMaps(xs: seq<Value>, key: string)
    requires forall i :: 0 <= i < |xs| ==> xs[i].Dict?
    ensures GetArg(List(xs), key).Ok?
    ensures (forall i :: 0 <= i < |xs| ==> key !in Keys(xs[i].entries)) ==>
              GetArg(List(xs), key) == Ok(Null)
    ensures forall i :: 0 <= i < |xs| && key in Keys(xs[i].entries) &&
                        (forall j :: 0 <= j < i ==> key !in Keys(xs[j].entries)) ==>
              GetArg(List(xs), key) == Ok(Get(xs[i].entries, key))
  {
    MatchingFirst(xs, key);
    var m := Matching(xs, key);
    if m.Ok? && m.value != [] {
      var i :| 0 <= i < |xs| && xs[i] == m.value[0] && Contains(xs[i], key) == Ok(true) &&
               forall j :: 0 <= j < i ==> Contains(xs[j], key) == Ok(false);
    }
  }
}
