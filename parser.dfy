/** `SLSParser` itself: the traversal that builds step objects, the cache it
    reads and fills, and `parse_state_steps`, which links the steps it
    traversed. */
module Parser {
  import opened Values
  import opened StateNames
  import opened Steps
  import opened Linker
  import opened Expansion

  /** The step objects agree with the expansion: the same exception, or the
      same steps in the same order. */
  predicate Mirrors(r: Result<seq<Step>>, spec: Result<seq<StepRec>>)
  {
    (r.Ok? <==> spec.Ok?) && (r.Err? ==> r.error == spec.error) && (r.Ok? ==> Records(r.value) == spec.value)
  }

  lemma DistinctConcat(a: seq<Step>, b: seq<Step>)
    requires Distinct(a) && Distinct(b)
    requires forall i, j :: 0 <= i < |a| && 0 <= j < |b| ==> a[i] != b[j]
    ensures Distinct(a + b)
  {
  }

  /** `pickle.load` of a cache file: new step objects with the stored
      contents and no dependencies. */
  method Unpickle(recs: seq<StepRec>) returns (steps: seq<Step>)
    ensures Records(steps) == recs
    ensures forall i :: 0 <= i < |steps| ==> fresh(steps[i])
    ensures Distinct(steps) && Unlinked(steps)
  {
    steps := [];
    var i := 0;
    while i < |recs|
      invariant i <= |recs|
      invariant Records(steps) == recs[..i]
      invariant forall k :: 0 <= k < |steps| ==> fresh(steps[k])
      invariant Distinct(steps) && Unlinked(steps)
    {
      var s := new Step(recs[i]);
      RecordsConcat(steps, [s]);
      assert recs[..i + 1] == recs[..i] + [recs[i]];
      steps := steps + [s];
      i := i + 1;
    }
    assert recs[..i] == recs;
  }

  /** The parser over one filesystem and renderer. `cache` stands for the
      cache files under `/tmp`; `rendered` records every file rendered so far. */
  class SlsParser {
    const env: Env
    var cache: Cache
    ghost var rendered: seq<Location>

    /** The cache holds only what the states it names expand to. Cache files
        left by earlier runs need not: nothing checks them against the state
        files they were made from. */
    ghost predicate Valid()
      reads this
    {
      Sound(env, cache)
    }

    /** A parser that finds the cache files `files` already on disk. */
    constructor(env: Env, files: Cache)
      ensures this.env == env && cache == files && rendered == []
    {
      this.env := env;
      cache := files;
      rendered := [];
    }

    ghost function State(): Store
      reads this
    {
      Store(cache, rendered)
    }

    /** `_traverse_state(name, stages_only, cache)` with `fuel` levels of
        recursion left: the new step objects it builds, and the cache and
        render log the expansion leaves. */
    method Traverse(cfg: Config, fuel: nat, name: string) returns (r: Result<seq<Step>>)
      modifies this
      ensures State() == Expand(env, cfg, fuel, name, old(State())).store
      ensures Mirrors(r, Expand(env, cfg, fuel, name, old(State())).result)
      ensures r.Ok? ==> (forall i :: 0 <= i < |r.value| ==> fresh(r.value[i])) &&
                        Distinct(r.value) && Unlinked(r.value)
      decreases fuel, 0
    {
      if fuel == 0 {
        return Err(RecursionLimit);
      }
      if cfg.stagesOnly && !InStages(name) {
        return Ok([]);
      }
      var key := CacheKey(cfg.stagesOnly, name);
      if cfg.useCache && key in cache {
        var steps := Unpickle(cache[key]);
        return Ok(steps);
      }
      var loc := Locate(env, name);
      if loc.Err? {
        return Err(loc.error);
      }
      rendered := rendered + [loc.value];
      var doc := env.render(loc.value);
      if !doc.Dict? {
        return Err(TypeError);
      }
      r := TraverseDecls(cfg, fuel - 1, name, doc.entries);
      if cfg.useCache && r.Ok? {
        cache := cache[key := Records(r.value)];
      }
    }

    /** The loop of `_traverse_state` over the declarations of the rendered
        file, in order. */
    method TraverseDecls(cfg: Config, fuel: nat, name: string, decls: seq<(string, Value)>)
      returns (r: Result<seq<Step>>)
      modifies this
      ensures State() == ExpandDecls(env, cfg, fuel, name, decls, old(State())).store
      ensures Mirrors(r, ExpandDecls(env, cfg, fuel, name, decls, old(State())).result)
      ensures r.Ok? ==> (forall i :: 0 <= i < |r.value| ==> fresh(r.value[i])) &&
                        Distinct(r.value) && Unlinked(r.value)
      decreases fuel, 4
    {
      ghost var st0 := State();
      var result: seq<Step> := [];
      var i := 0;
      while i < |decls|
        invariant i <= |decls|
        invariant ExpandDecls(env, cfg, fuel, name, decls[..i], st0) == Run(Ok(Records(result)), State())
        invariant forall k :: 0 <= k < |result| ==> fresh(result[k])
        invariant Distinct(result) && Unlinked(result)
      {
        assert decls[..i + 1][..i] == decls[..i];
        var more := TraverseDecl(cfg, fuel, name, decls[i].0, decls[i].1);
        if more.Err? {
          ExpandDeclsStops(env, cfg, fuel, name, decls, i + 1, st0);
          return Err(more.error);
        }
        RecordsConcat(result, more.value);
        DistinctConcat(result, more.value);
        result := result + more.value;
        i := i + 1;
      }
      assert decls[..i] == decls;
      return Ok(result);
    }

    /** One declaration: the includes, or the function calls under a state
        id; any other value adds nothing. */
    method TraverseDecl(cfg: Config, fuel: nat, name: string, key: string, body: Value)
      returns (r: Result<seq<Step>>)
      modifies this
      ensures State() == ExpandDecl(env, cfg, fuel, name, key, body, old(State())).store
      ensures Mirrors(r, ExpandDecl(env, cfg, fuel, name, key, body, old(State())).result)
      ensures r.Ok? ==> (forall i :: 0 <= i < |r.value| ==> fresh(r.value[i])) &&
                        Distinct(r.value) && Unlinked(r.value)
      decreases fuel, 3
    {
      if key == "include" {
        var incs := Iterate(body);
        if incs.Err? {
          return Err(incs.error);
        }
        r := TraverseIncludes(cfg, fuel, name, incs.value);
      } else if body.Dict? {
        r := TraverseFuns(cfg, fuel, key, body.entries);
      } else {
        r := Ok([]);
      }
    }

    /** The loop over the includes of `parent`: each one names a state,
        whose steps are spliced in. */
    method TraverseIncludes(cfg: Config, fuel: nat, parent: string, incs: seq<Value>)
      returns (r: Result<seq<Step>>)
      modifies this
      ensures State() == ExpandIncludes(env, cfg, fuel, parent, incs, old(State())).store
      ensures Mirrors(r, ExpandIncludes(env, cfg, fuel, parent, incs, old(State())).result)
      ensures r.Ok? ==> (forall i :: 0 <= i < |r.value| ==> fresh(r.value[i])) &&
                        Distinct(r.value) && Unlinked(r.value)
      decreases fuel, 2
    {
      ghost var st0 := State();
      var result: seq<Step> := [];
      var i := 0;
      while i < |incs|
        invariant i <= |incs|
        invariant ExpandIncludes(env, cfg, fuel, parent, incs[..i], st0) == Run(Ok(Records(result)), State())
        invariant forall k :: 0 <= k < |result| ==> fresh(result[k])
        invariant Distinct(result) && Unlinked(result)
      {
        assert incs[..i + 1][..i] == incs[..i];
        var more := TraverseInclude(cfg, fuel, parent, incs[i]);
        if more.Err? {
          ExpandIncludesStops(env, cfg, fuel, parent, incs, i + 1, st0);
          return Err(more.error);
        }
        RecordsConcat(result, more.value);
        DistinctConcat(result, more.value);
        result := result + more.value;
        i := i + 1;
      }
      assert incs[..i] == incs;
      return Ok(result);
    }

    /** One include reference: the state name it resolves to, traversed. */
    method TraverseInclude(cfg: Config, fuel: nat, parent: string, inc: Value) returns (r: Result<seq<Step>>)
      modifies this
      ensures State() == ExpandInclude(env, cfg, fuel, parent, inc, old(State())).store
      ensures Mirrors(r, ExpandInclude(env, cfg, fuel, parent, inc, old(State())).result)
      ensures r.Ok? ==> (forall i :: 0 <= i < |r.value| ==> fresh(r.value[i])) &&
                        Distinct(r.value) && Unlinked(r.value)
      decreases fuel, 1
    {
      if !inc.Str? {
        return Err(TypeError);
      }
      var target := GenStateName(parent, inc.s, env.isDir(parent));
      r := Traverse(cfg, fuel, target);
    }

    /** The loop over the function calls under the state id `desc`, in
        order. */
    method TraverseFuns(cfg: Config, fuel: nat, desc: string, funs: seq<(string, Value)>)
      returns (r: Result<seq<Step>>)
      modifies this
      ensures State() == ExpandFuns(env, cfg, fuel, desc, funs, old(State())).store
      ensures Mirrors(r, ExpandFuns(env, cfg, fuel, desc, funs, old(State())).result)
      ensures r.Ok? ==> (forall i :: 0 <= i < |r.value| ==> fresh(r.value[i])) &&
                        Distinct(r.value) && Unlinked(r.value)
      decreases fuel, 2
    {
      ghost var st0 := State();
      var result: seq<Step> := [];
      var i := 0;
      while i < |funs|
        invariant i <= |funs|
        invariant ExpandFuns(env, cfg, fuel, desc, funs[..i], st0) == Run(Ok(Records(result)), State())
        invariant forall k :: 0 <= k < |result| ==> fresh(result[k])
        invariant Distinct(result) && Unlinked(result)
      {
        assert funs[..i + 1][..i] == funs[..i];
        var more := TraverseCall(cfg, fuel, desc, funs[i].0, funs[i].1);
        if more.Err? {
          ExpandFunsStops(env, cfg, fuel, desc, funs, i + 1, st0);
          return Err(more.error);
        }
        RecordsConcat(result, more.value);
        DistinctConcat(result, more.value);
        result := result + more.value;
        i := i + 1;
      }
      assert funs[..i] == funs;
      return Ok(result);
    }

    /** One function call under `desc`: the new step, and for `salt.state`
        the steps of the state it applies, right after it. */
    method TraverseCall(cfg: Config, fuel: nat, desc: string, fun: string, args: Value)
      returns (r: Result<seq<Step>>)
      modifies this
      ensures State() == ExpandCall(env, cfg, fuel, desc, fun, args, old(State())).store
      ensures Mirrors(r, ExpandCall(env, cfg, fuel, desc, fun, args, old(State())).result)
      ensures r.Ok? ==> (forall i :: 0 <= i < |r.value| ==> fresh(r.value[i])) &&
                        Distinct(r.value) && Unlinked(r.value)
      decreases fuel, 1
    {
      var step := NewStepObject(desc, fun, args);
      if step.Err? {
        return Err(step.error);
      }
      var s := step.value;
      if fun != "salt.state" {
        return Ok([s]);
      }
      if !s.kind.state.Str? {
        return Err(TypeError);
      }
      var more := Traverse(cfg, fuel, s.kind.state.s);
      if more.Err? {
        return Err(more.error);
      }
      RecordsConcat([s], more.value);
      DistinctConcat([s], more.value);
      return Ok([s] + more.value);
    }

    /** `parse_state_steps(name, stages_only, cache)`: the traversal, then the
        linking pass over its steps. Each step it returns holds exactly the
        dependencies its requisites resolve to. A sound cache stays sound, and
        then a list it returns is the reference flattening of the state; a
        stale cache entry is returned as it stands. */
    method ParseStateSteps(cfg: Config, fuel: nat, name: string) returns (r: Result<seq<Step>>)
      modifies this
      ensures old(Valid()) ==> Valid()
      ensures State() == Expand(env, cfg, fuel, name, old(State())).store
      ensures var spec := Expand(env, cfg, fuel, name, old(State())).result;
              (spec.Err? ==> r == Err(spec.error)) &&
              (spec.Ok? ==>
                 var links := Links(spec.value, |spec.value|);
                 (r.Ok? <==> links.Ok?) && (r.Err? ==> r.error == links.error) &&
                 (r.Ok? ==> Records(r.value) == spec.value && (old(Valid()) ==> Reaches(env, cfg.stagesOnly, name, spec.value)) &&
                            Distinct(r.value) && (forall i :: 0 <= i < |r.value| ==> fresh(r.value[i])) &&
                            forall i :: 0 <= i < |r.value| ==>
                              Holds(r.value[i].onSuccessDeps, r.value[i].onFailDeps, r.value, [], [], links.value[i])))
    {
      if Valid() {
        ghost var f := ExpandSound(env, cfg, fuel, name, State());
      }
      var steps := Traverse(cfg, fuel, name);
      if steps.Err? {
        return Err(steps.error);
      }
      var result := steps.value;
      var linked := LinkSteps(result);
      if linked.Err? {
        return Err(linked.error);
      }
      return Ok(result);
    }
  }
}
