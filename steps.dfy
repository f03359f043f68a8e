/** The steps of a stage: `SaltStep` and its four kinds, `SaltState`,
    `SaltRunner`, `SaltModule` and `SaltBuiltIn`. */
module Steps {
  import opened Values

  /** What distinguishes the four step classes. `state`, `target` and the
      runner's and module's `fun` are whatever `get_arg` returned, which need
      not be a string. */
  datatype StepKind =
    | SaltState(state: Value, target: Value)
    | SaltRunner(fun: Value)
    | SaltModule(fun: Value)
    | SaltBuiltIn(funName: string)

  /** The value part of a step: everything but its dependency lists. */
  datatype StepRec = StepRec(desc: string, args: Value, kind: StepKind)

  /** Python's `d[k] = v` for each pair of `ps` in turn. */
  function SetAll(d: seq<(string, Value)>, ps: seq<(string, Value)>): seq<(string, Value)>
  {
    if ps == [] then d
    else
      var last := ps[|ps| - 1];
      Set(SetAll(d, ps[..|ps| - 1]), last.0, last.1)
  }

  /** The dict `SaltBuiltIn.__init__` builds from the elements of its
      arguments: a dict element has its pairs stored, any other element is
      stored under `nokey`. */
  function FoldArgs(elems: seq<Value>): seq<(string, Value)>
  {
    if elems == [] then []
    else
      var d := FoldArgs(elems[..|elems| - 1]);
      var e := elems[|elems| - 1];
      if e.Dict? then SetAll(d, e.entries) else Set(d, "nokey", e)
  }

  /** The value the last pair with key `k` carries. */
  function LastEntry(ps: seq<(string, Value)>, k: string): (r: Option<Value>)
    ensures r.None? <==> forall i :: 0 <= i < |ps| ==> ps[i].0 != k
  {
    if ps == [] then None
    else if ps[|ps| - 1].0 == k then Some(ps[|ps| - 1].1)
    else LastEntry(ps[..|ps| - 1], k)
  }

  /** The last write to `k` among the elements: the reference the fold is
      measured against. */
  function LastWrite(elems: seq<Value>, k: string): Option<Value>
  {
    if elems == [] then None
    else
      var e := elems[|elems| - 1];
      var earlier := LastWrite(elems[..|elems| - 1], k);
      if e.Dict? then
        (match LastEntry(e.entries, k)
         case Some(v) => Some(v)
         case None => earlier)
      else if k == "nokey" then Some(e)
      else earlier
  }

  lemma {:induction false} SetAllLookup(d: seq<(string, Value)>, ps: seq<(string, Value)>, k: string)
    ensures Lookup(SetAll(d, ps), k) ==
              match LastEntry(ps, k)
              case Some(v) => Some(v)
              case None => Lookup(d, k)
  {
    if ps != [] {
      var last := ps[|ps| - 1];
      SetAllLookup(d, ps[..|ps| - 1], k);
      SetLookup(SetAll(d, ps[..|ps| - 1]), last.0, last.1, k);
    }
  }

  /** Later writes win: the folded dict maps each key to its last write, and
      holds no key that was never written. */
  lemma {:induction false} FoldArgsLookup(elems: seq<Value>, k: string)
    ensures Lookup(FoldArgs(elems), k) == LastWrite(elems, k)
  {
    if elems != [] {
      var prefix := elems[..|elems| - 1];
      var e := elems[|elems| - 1];
      FoldArgsLookup(prefix, k);
      if e.Dict? {
        SetAllLookup(FoldArgs(prefix), e.entries, k);
      } else {
        SetLookup(FoldArgs(prefix), "nokey", e, k);
      }
    }
  }

  lemma {:induction false} SetAllKeepsKeysDistinct(d: seq<(string, Value)>, ps: seq<(string, Value)>)
    requires DistinctKeys(d)
    ensures DistinctKeys(SetAll(d, ps))
  {
    if ps != [] {
      var last := ps[|ps| - 1];
      SetAllKeepsKeysDistinct(d, ps[..|ps| - 1]);
      SetKeepsKeysDistinct(SetAll(d, ps[..|ps| - 1]), last.0, last.1);
    }
  }

  /** The folded arguments form a proper dict: no key occurs twice. */
  lemma {:induction false} FoldArgsKeysDistinct(elems: seq<Value>)
    ensures DistinctKeys(FoldArgs(elems))
  {
    if elems != [] {
      var prefix := elems[..|elems| - 1];
      var e := elems[|elems| - 1];
      FoldArgsKeysDistinct(prefix);
      if e.Dict? {
        SetAllKeepsKeysDistinct(FoldArgs(prefix), e.entries);
      } else {
        SetKeepsKeysDistinct(FoldArgs(prefix), "nokey", e);
      }
    }
  }

  /** What the constructor of the class `fun` selects computes from `desc`
      and `args`: `salt.state` reads `sls` and then `tgt`, `salt.runner` and
      `module.run` read `name`, and any other function is a built-in whose
      arguments are iterated and folded into one dict. */
  function NewStep(desc: string, fun: string, args: Value): (r: Result<StepRec>)
    ensures r.Ok? ==> r.value.desc == desc
    ensures r.Ok? ==> (r.value.kind.SaltState? <==> fun == "salt.state")
    ensures r.Ok? ==> (r.value.kind.SaltRunner? <==> fun == "salt.runner")
    ensures r.Ok? ==> (r.value.kind.SaltModule? <==> fun == "module.run")
    ensures r.Ok? && !r.value.kind.SaltBuiltIn? ==> r.value.args == args
    ensures fun in ["salt.state", "salt.runner", "module.run"] ==>
              (r == Err(AssertionFailed) <==> !(args.Dict? || args.List?))
    ensures fun !in ["salt.state", "salt.runner", "module.run"] ==>
              (r.Ok? <==> args.Dict? || args.List? || args.Str?) &&
              (r.Ok? ==> r.value.kind == SaltBuiltIn(fun) && r.value.args.Dict?)
    ensures fun == "salt.state" ==>
              (r.Ok? <==> GetArg(args, "sls").Ok? && GetArg(args, "tgt").Ok?) &&
              (r.Ok? ==> r.value.kind == SaltState(GetArg(args, "sls").value, GetArg(args, "tgt").value))
    ensures fun == "salt.runner" ==>
              (r.Ok? <==> GetArg(args, "name").Ok?) &&
              (r.Ok? ==> r.value.kind == SaltRunner(GetArg(args, "name").value))
    ensures fun == "module.run" ==>
              (r.Ok? <==> GetArg(args, "name").Ok?) &&
              (r.Ok? ==> r.value.kind == SaltModule(GetArg(args, "name").value))
  {
    if fun == "salt.state" then
      match GetArg(args, "sls")
      case Err(e) => Err(e)
      case Ok(state) =>
        (match GetArg(args, "tgt")
         case Err(e) => Err(e)
         case Ok(target) => Ok(StepRec(desc, args, SaltState(state, target))))
    else if fun == "salt.runner" then
      match GetArg(args, "name")
      case Err(e) => Err(e)
      case Ok(f) => Ok(StepRec(desc, args, SaltRunner(f)))
    else if fun == "module.run" then
      match GetArg(args, "name")
      case Err(e) => Err(e)
      case Ok(f) => Ok(StepRec(desc, args, SaltModule(f)))
    else
      match Iterate(args)
      case Err(e) => Err(e)
      case Ok(elems) => Ok(StepRec(desc, Dict(FoldArgs(elems)), SaltBuiltIn(fun)))
  }

  /** A built-in's stored arguments map every key to its last write among
      the iterated arguments, with no key twice. */
  lemma BuiltInArgs(desc: string, fun: string, args: Value, k: string)
    requires NewStep(desc, fun, args).Ok?
    requires NewStep(desc, fun, args).value.kind.SaltBuiltIn?
    ensures var a := NewStep(desc, fun, args).value.args;
            a.Dict? && DistinctKeys(a.entries) && Lookup(a.entries, k) == LastWrite(Iterate(args).value, k)
  {
    FoldArgsLookup(Iterate(args).value, k);
    FoldArgsKeysDistinct(Iterate(args).value);
  }

  /** For the usual argument shape, a list of one-key dicts, a state step
      reads `sls` and `tgt` from the first dict that holds each. */
  lemma SaltStateOfMaps(desc: string, args: seq<Value>, i: nat)
    requires forall j :: 0 <= j < |args| ==> args[j].Dict?
    requires i < |args| && "sls" in Keys(args[i].entries)
    requires forall j :: 0 <= j < i ==> "sls" !in Keys(args[j].entries)
    ensures NewStep(desc, "salt.state", List(args)).Ok?
    ensures NewStep(desc, "salt.state", List(args)).value.kind.state == Get(args[i].entries, "sls")
  {
    assert GetArg(List(args), "sls") == Ok(Get(args[i].entries, "sls")) by {
      GetArgOfMaps(args, "sls");
    }
    assert GetArg(List(args), "tgt").Ok? by {
      GetArgOfMaps(args, "tgt");
    }
  }

  /** A state or step object. `desc`, `args` and the kind are fixed once the
      constructor has run; the linking pass appends to the two dependency
      lists. */
  class Step {
    const desc: string
    const args: Value
    const kind: StepKind
    var onSuccessDeps: seq<Step>
    var onFailDeps: seq<Step>

    constructor(r: StepRec)
      ensures Record() == r
      ensures onSuccessDeps == [] && onFailDeps == []
    {
      desc := r.desc;
      args := r.args;
      kind := r.kind;
      onSuccessDeps := [];
      onFailDeps := [];
    }

    function Record(): StepRec
    {
      StepRec(desc, args, kind)
    }
  }

  function Records(steps: seq<Step>): (rs: seq<StepRec>)
    ensures |rs| == |steps|
  {
    seq(|steps|, i requires 0 <= i < |steps| => steps[i].Record())
  }

  lemma RecordsConcat(a: seq<Step>, b: seq<Step>)
    ensures Records(a + b) == Records(a) + Records(b)
  {
  }

  /** No step object occurs twice. */
  predicate Distinct(steps: seq<Step>)
  {
    forall i, j :: 0 <= i < j < |steps| ==> steps[i] != steps[j]
  }

  /** No step has a dependency yet. */
  predicate Unlinked(steps: seq<Step>)
    reads set i | 0 <= i < |steps| :: steps[i]
  {
    forall i :: 0 <= i < |steps| ==> steps[i].onSuccessDeps == [] && steps[i].onFailDeps == []
  }

  /** The loop of `SaltBuiltIn.__init__`, which fills the new dict one
      assignment at a time. */
  method FoldBuiltInArgs(elems: seq<Value>) returns (d: seq<(string, Value)>)
    ensures d == FoldArgs(elems)
  {
    d := [];
    var i := 0;
    while i < |elems|
      invariant i <= |elems|
      invariant d == FoldArgs(elems[..i])
    {
      assert elems[..i + 1][..i] == elems[..i];
      if elems[i].Dict? {
        d := StoreAll(d, elems[i].entries);
      } else {
        d := Set(d, "nokey", elems[i]);
      }
      i := i + 1;
    }
    assert elems[..i] == elems;
  }

  /** The inner loop: every pair of one dict argument stored in turn. */
  method StoreAll(d0: seq<(string, Value)>, ps: seq<(string, Value)>) returns (d: seq<(string, Value)>)
    ensures d == SetAll(d0, ps)
  {
    d := d0;
    var j := 0;
    while j < |ps|
      invariant j <= |ps|
      invariant d == SetAll(d0, ps[..j])
    {
      assert ps[..j + 1][..j] == ps[..j];
      d := Set(d, ps[j].0, ps[j].1);
      j := j + 1;
    }
    assert ps[..j] == ps;
  }

  /** The four constructors: the step object for the function `fun` declared
      under `desc`, or the exception its constructor raises. */
  method NewStepObject(desc: string, fun: string, args: Value) returns (r: Result<Step>)
    ensures r.Ok? <==> NewStep(desc, fun, args).Ok?
    ensures r.Err? ==> r.error == NewStep(desc, fun, args).error
    ensures r.Ok? ==> fresh(r.value) && r.value.Record() == NewStep(desc, fun, args).value
    ensures r.Ok? ==> r.value.onSuccessDeps == [] && r.value.onFailDeps == []
  {
    if fun == "salt.state" || fun == "salt.runner" || fun == "module.run" {
      var rec := NewStep(desc, fun, args);
      if rec.Err? {
        return Err(rec.error);
      }
      var s := new Step(rec.value);
      return Ok(s);
    }
    var elems := Iterate(args);
    if elems.Err? {
      return Err(elems.error);
    }
    var d := FoldBuiltInArgs(elems.value);
    var s := new Step(StepRec(desc, Dict(d), SaltBuiltIn(fun)));
    return Ok(s);
  }
}
