/** `SLSParser._traverse_state` as a function: the expansion of a state name
    into the flat, ordered list of its steps. The filesystem and the Salt
    renderer are parameters; the pickle cache files are a map; the Python
    recursion limit is a fuel bound. */
module Expansion {
  import opened Values
  import opened StateNames
  import opened Steps

  /** The file that backs a state name: `<name>/init.sls` for a directory,
      `<name>.sls` otherwise. */
  datatype Location = InitFile(state: string) | LeafFile(state: string)

  /** What the parser asks of the outside world: whether a state name is a
      directory under the Salt root, whether a file exists, and what the
      renderer makes of a file. */
  datatype Env = Env(isDir: string -> bool, present: Location -> bool, render: Location -> Value)

  /** `_state_file_path`: the file of a state, or `OrchestrationNotFound`. */
  function Locate(env: Env, name: string): (r: Result<Location>)
    ensures r.Ok? ==> r.value.state == name && (r.value.InitFile? <==> env.isDir(name)) && env.present(r.value)
    ensures r.Err? ==> r.error == OrchestrationNotFound &&
                       !env.present(if env.isDir(name) then InitFile(name) else LeafFile(name))
  {
    var loc := if env.isDir(name) then InitFile(name) else LeafFile(name);
    if env.present(loc) then Ok(loc) else Err(OrchestrationNotFound)
  }

  /** The two switches of `parse_state_steps`. */
  datatype Config = Config(stagesOnly: bool, useCache: bool)

  /** A cache file is named after both the switch and the state name. */
  datatype CacheKey = CacheKey(stagesOnly: bool, name: string)

  type Cache = map<CacheKey, seq<StepRec>>

  /** What an expansion leaves behind: the cache, and the files it rendered,
      in order. */
  datatype Store = Store(cache: Cache, rendered: seq<Location>)

  /** The steps an expansion returns, or the exception it raises, and the
      store after it. */
  datatype Run = Run(result: Result<seq<StepRec>>, store: Store)

  /** `state_name.startswith('ceph.stage')`. */
  predicate InStages(name: string)
  {
    "ceph.stage" <= name
  }

  /** `after` rendered everything `before` did and more, and kept every cache
      entry of `before` as it was; without the cache, the cache is untouched. */
  predicate Grows(cfg: Config, before: Store, after: Store)
  {
    before.rendered <= after.rendered &&
    (forall k :: k in before.cache ==> k in after.cache && after.cache[k] == before.cache[k]) &&
    (!cfg.useCache ==> after.cache == before.cache)
  }

  /** The steps `done` followed by those of the run `next`, or its exception. */
  function Then(done: seq<StepRec>, next: Run): Run
  {
    match next.result
    case Err(e) => next
    case Ok(more) => Run(Ok(done + more), next.store)
  }

  /** `_traverse_state(name, stages_only, cache)` with `fuel` levels of
      recursion left. */
  function Expand(env: Env, cfg: Config, fuel: nat, name: string, st: Store): (r: Run)
    ensures Grows(cfg, st, r.store)
    ensures fuel > 0 && cfg.stagesOnly && !InStages(name) ==> r == Run(Ok([]), st)
    ensures fuel > 0 && !(cfg.stagesOnly && !InStages(name)) && cfg.useCache &&
            CacheKey(cfg.stagesOnly, name) in st.cache ==>
              r == Run(Ok(st.cache[CacheKey(cfg.stagesOnly, name)]), st)
    ensures fuel > 0 && !(cfg.stagesOnly && !InStages(name)) && cfg.useCache && r.result.Ok? ==>
              CacheKey(cfg.stagesOnly, name) in r.store.cache &&
              r.store.cache[CacheKey(cfg.stagesOnly, name)] == r.result.value
    decreases fuel, 0
  {
    if fuel == 0 then Run(Err(RecursionLimit), st)
    else if cfg.stagesOnly && !InStages(name) then Run(Ok([]), st)
    else
      var key := CacheKey(cfg.stagesOnly, name);
      if cfg.useCache && key in st.cache then Run(Ok(st.cache[key]), st)
      else
        match Locate(env, name)
        case Err(e) => Run(Err(e), st)
        case Ok(loc) =>
          var st1 := st.(rendered := st.rendered + [loc]);
          match env.render(loc)
          case Dict(decls) =>
            var r := ExpandDecls(env, cfg, fuel - 1, name, decls, st1);
            if cfg.useCache && r.result.Ok? then
              Run(r.result, r.store.(cache := r.store.cache[key := r.result.value]))
            else r
          case _ => Run(Err(TypeError), st1)
  }

  /** The loop over the declarations of a rendered state file. */
  function ExpandDecls(env: Env, cfg: Config, fuel: nat, name: string, decls: seq<(string, Value)>,
                       st: Store): (r: Run)
    ensures Grows(cfg, st, r.store)
    decreases fuel, 4, |decls|
  {
    if decls == [] then Run(Ok([]), st)
    else
      var prev := ExpandDecls(env, cfg, fuel, name, decls[..|decls| - 1], st);
      match prev.result
      case Err(_) => prev
      case Ok(done) =>
        var decl := decls[|decls| - 1];
        Then(done, ExpandDecl(env, cfg, fuel, name, decl.0, decl.1, prev.store))
  }

  /** One declaration: the `include` list, a state id with its function
      calls, or anything else, which adds nothing. */
  function ExpandDecl(env: Env, cfg: Config, fuel: nat, name: string, key: string, body: Value,
                      st: Store): (r: Run)
    ensures Grows(cfg, st, r.store)
    decreases fuel, 3
  {
    if key == "include" then
      match Iterate(body)
      case Err(e) => Run(Err(e), st)
      case Ok(incs) => ExpandIncludes(env, cfg, fuel, name, incs, st)
    else if body.Dict? then ExpandFuns(env, cfg, fuel, key, body.entries, st)
    else Run(Ok([]), st)
  }

  /** The includes of `parent`, each expanded in place. */
  function ExpandIncludes(env: Env, cfg: Config, fuel: nat, parent: string, incs: seq<Value>,
                          st: Store): (r: Run)
    ensures Grows(cfg, st, r.store)
    decreases fuel, 2, |incs|
  {
    if incs == [] then Run(Ok([]), st)
    else
      var prev := ExpandIncludes(env, cfg, fuel, parent, incs[..|incs| - 1], st);
      match prev.result
      case Err(_) => prev
      case Ok(done) => Then(done, ExpandInclude(env, cfg, fuel, parent, incs[|incs| - 1], prev.store))
  }

  /** One include reference, which must be a string: the expansion of the
      state it names relative to `parent`. */
  function ExpandInclude(env: Env, cfg: Config, fuel: nat, parent: string, inc: Value, st: Store): (r: Run)
    ensures Grows(cfg, st, r.store)
    decreases fuel, 1
  {
    if inc.Str? then Expand(env, cfg, fuel, IncludeTarget(parent, inc.s, env.isDir(parent)), st)
    else Run(Err(TypeError), st)
  }

  /** The function calls under the state id `desc`, in order. */
  function ExpandFuns(env: Env, cfg: Config, fuel: nat, desc: string, funs: seq<(string, Value)>,
                      st: Store): (r: Run)
    ensures Grows(cfg, st, r.store)
    decreases fuel, 2, |funs|
  {
    if funs == [] then Run(Ok([]), st)
    else
      var prev := ExpandFuns(env, cfg, fuel, desc, funs[..|funs| - 1], st);
      match prev.result
      case Err(_) => prev
      case Ok(done) =>
        var call := funs[|funs| - 1];
        Then(done, ExpandCall(env, cfg, fuel, desc, call.0, call.1, prev.store))
  }

  /** One function call: the step it constructs, and for `salt.state` the
      steps of the state it applies right after it. */
  function ExpandCall(env: Env, cfg: Config, fuel: nat, desc: string, fun: string, args: Value,
                      st: Store): (r: Run)
    ensures Grows(cfg, st, r.store)
    decreases fuel, 1
  {
    match NewStep(desc, fun, args)
    case Err(e) => Run(Err(e), st)
    case Ok(rec) =>
      if fun != "salt.state" then Run(Ok([rec]), st)
      else if rec.kind.state.Str? then Then([rec], Expand(env, cfg, fuel, rec.kind.state.s, st))
      else Run(Err(TypeError), st)
  }

  /** The reference expansion, with no cache and no record of what was
      rendered: the tree of includes and `salt.state` calls, flattened in
      declaration order. */
  function Flatten(env: Env, stagesOnly: bool, fuel: nat, name: string): Result<seq<StepRec>>
    decreases fuel, 0
  {
    if fuel == 0 then Err(RecursionLimit)
    else if stagesOnly && !InStages(name) then Ok([])
    else
      match Locate(env, name)
      case Err(e) => Err(e)
      case Ok(loc) =>
        match env.render(loc)
        case Dict(decls) => FlattenDecls(env, stagesOnly, fuel - 1, name, decls)
        case _ => Err(TypeError)
  }

  function FlattenDecls(env: Env, stagesOnly: bool, fuel: nat, name: string,
                        decls: seq<(string, Value)>): Result<seq<StepRec>>
    decreases fuel, 4, |decls|
  {
    if decls == [] then Ok([])
    else
      match FlattenDecls(env, stagesOnly, fuel, name, decls[..|decls| - 1])
      case Err(e) => Err(e)
      case Ok(done) =>
        var decl := decls[|decls| - 1];
        match FlattenDecl(env, stagesOnly, fuel, name, decl.0, decl.1)
        case Err(e) => Err(e)
        case Ok(more) => Ok(done + more)
  }

  function FlattenDecl(env: Env, stagesOnly: bool, fuel: nat, name: string, key: string,
                       body: Value): Result<seq<StepRec>>
    decreases fuel, 3
  {
    if key == "include" then
      match Iterate(body)
      case Err(e) => Err(e)
      case Ok(incs) => FlattenIncludes(env, stagesOnly, fuel, name, incs)
    else if body.Dict? then FlattenFuns(env, stagesOnly, fuel, key, body.entries)
    else Ok([])
  }

  function FlattenIncludes(env: Env, stagesOnly: bool, fuel: nat, parent: string,
                           incs: seq<Value>): Result<seq<StepRec>>
    decreases fuel, 2, |incs|
  {
    if incs == [] then Ok([])
    else
      match FlattenIncludes(env, stagesOnly, fuel, parent, incs[..|incs| - 1])
      case Err(e) => Err(e)
      case Ok(done) =>
        match FlattenInclude(env, stagesOnly, fuel, parent, incs[|incs| - 1])
        case Err(e) => Err(e)
        case Ok(more) => Ok(done + more)
  }

  function FlattenInclude(env: Env, stagesOnly: bool, fuel: nat, parent: string, inc: Value): Result<seq<StepRec>>
    decreases fuel, 1
  {
    if inc.Str? then Flatten(env, stagesOnly, fuel, IncludeTarget(parent, inc.s, env.isDir(parent)))
    else Err(TypeError)
  }

  function FlattenFuns(env: Env, stagesOnly: bool, fuel: nat, desc: string,
                       funs: seq<(string, Value)>): Result<seq<StepRec>>
    decreases fuel, 2, |funs|
  {
    if funs == [] then Ok([])
    else
      match FlattenFuns(env, stagesOnly, fuel, desc, funs[..|funs| - 1])
      case Err(e) => Err(e)
      case Ok(done) =>
        var call := funs[|funs| - 1];
        match FlattenCall(env, stagesOnly, fuel, desc, call.0, call.1)
        case Err(e) => Err(e)
        case Ok(more) => Ok(done + more)
  }

  function FlattenCall(env: Env, stagesOnly: bool, fuel: nat, desc: string, fun: string,
                       args: Value): Result<seq<StepRec>>
    decreases fuel, 1
  {
    match NewStep(desc, fun, args)
    case Err(e) => Err(e)
    case Ok(rec) =>
      if fun != "salt.state" then Ok([rec])
      else if !rec.kind.state.Str? then Err(TypeError)
      else
        match Flatten(env, stagesOnly, fuel, rec.kind.state.s)
        case Err(e) => Err(e)
        case Ok(more) => Ok([rec] + more)
  }

  /** Without the cache, the expansion is the reference flattening. */
  lemma {:induction false} ExpandUncached(env: Env, stagesOnly: bool, fuel: nat, name: string, st: Store)
    ensures Expand(env, Config(stagesOnly, false), fuel, name, st).result == Flatten(env, stagesOnly, fuel, name)
    decreases fuel, 0
  {
    if fuel > 0 && !(stagesOnly && !InStages(name)) && Locate(env, name).Ok? {
      var loc := Locate(env, name).value;
      if env.render(loc).Dict? {
        ExpandDeclsUncached(env, stagesOnly, fuel - 1, name, env.render(loc).entries,
                            st.(rendered := st.rendered + [loc]));
      }
    }
  }

  lemma {:induction false} ExpandDeclsUncached(env: Env, stagesOnly: bool, fuel: nat, name: string,
                                               decls: seq<(string, Value)>, st: Store)
    ensures ExpandDecls(env, Config(stagesOnly, false), fuel, name, decls, st).result ==
            FlattenDecls(env, stagesOnly, fuel, name, decls)
    decreases fuel, 4, |decls|
  {
    if decls != [] {
      var cfg := Config(stagesOnly, false);
      var prefix := decls[..|decls| - 1];
      ExpandDeclsUncached(env, stagesOnly, fuel, name, prefix, st);
      var prev := ExpandDecls(env, cfg, fuel, name, prefix, st);
      if prev.result.Ok? {
        var decl := decls[|decls| - 1];
        ExpandDeclUncached(env, stagesOnly, fuel, name, decl.0, decl.1, prev.store);
      }
    }
  }

  lemma {:induction false} ExpandDeclUncached(env: Env, stagesOnly: bool, fuel: nat, name: string,
                                              key: string, body: Value, st: Store)
    ensures ExpandDecl(env, Config(stagesOnly, false), fuel, name, key, body, st).result ==
            FlattenDecl(env, stagesOnly, fuel, name, key, body)
    decreases fuel, 3
  {
    if key == "include" {
      if Iterate(body).Ok? {
        ExpandIncludesUncached(env, stagesOnly, fuel, name, Iterate(body).value, st);
      }
    } else if body.Dict? {
      ExpandFunsUncached(env, stagesOnly, fuel, key, body.entries, st);
    }
  }

  lemma {:induction false} ExpandIncludesUncached(env: Env, stagesOnly: bool, fuel: nat, parent: string,
                                                  incs: seq<Value>, st: Store)
    ensures ExpandIncludes(env, Config(stagesOnly, false), fuel, parent, incs, st).result ==
            FlattenIncludes(env, stagesOnly, fuel, parent, incs)
    decreases fuel, 2, |incs|
  {
    if incs != [] {
      var cfg := Config(stagesOnly, false);
      var prefix := incs[..|incs| - 1];
      ExpandIncludesUncached(env, stagesOnly, fuel, parent, prefix, st);
      var prev := ExpandIncludes(env, cfg, fuel, parent, prefix, st);
      var inc := incs[|incs| - 1];
      if prev.result.Ok? && inc.Str? {
        ExpandUncached(env, stagesOnly, fuel, IncludeTarget(parent, inc.s, env.isDir(parent)), prev.store);
      }
    }
  }

  lemma {:induction false} ExpandFunsUncached(env: Env, stagesOnly: bool, fuel: nat, desc: string,
                                              funs: seq<(string, Value)>, st: Store)
    ensures ExpandFuns(env, Config(stagesOnly, false), fuel, desc, funs, st).result ==
            FlattenFuns(env, stagesOnly, fuel, desc, funs)
    decreases fuel, 2, |funs|
  {
    if funs != [] {
      var cfg := Config(stagesOnly, false);
      var prefix := funs[..|funs| - 1];
      ExpandFunsUncached(env, stagesOnly, fuel, desc, prefix, st);
      var prev := ExpandFuns(env, cfg, fuel, desc, prefix, st);
      var call := funs[|funs| - 1];
      if prev.result.Ok? {
        ExpandCallUncached(env, stagesOnly, fuel, desc, call.0, call.1, prev.store);
      }
    }
  }

  lemma {:induction false} ExpandCallUncached(env: Env, stagesOnly: bool, fuel: nat, desc: string,
                                              fun: string, args: Value, st: Store)
    ensures ExpandCall(env, Config(stagesOnly, false), fuel, desc, fun, args, st).result ==
            FlattenCall(env, stagesOnly, fuel, desc, fun, args)
    decreases fuel, 1
  {
    var rec := NewStep(desc, fun, args);
    if rec.Ok? && fun == "salt.state" && rec.value.kind.state.Str? {
      ExpandUncached(env, stagesOnly, fuel, rec.value.kind.state.s, st);
    }
  }

  /** More recursion depth never changes a flattening that succeeds. */
  lemma {:induction false} FlattenMono(env: Env, stagesOnly: bool, f: nat, g: nat, name: string)
    requires f <= g && Flatten(env, stagesOnly, f, name).Ok?
    ensures Flatten(env, stagesOnly, g, name) == Flatten(env, stagesOnly, f, name)
    decreases f, 0
  {
    if !(stagesOnly && !InStages(name)) {
      var loc := Locate(env, name).value;
      FlattenDeclsMono(env, stagesOnly, f - 1, g - 1, name, env.render(loc).entries);
    }
  }

  lemma {:induction false} FlattenDeclsMono(env: Env, stagesOnly: bool, f: nat, g: nat, name: string,
                                            decls: seq<(string, Value)>)
    requires f <= g && FlattenDecls(env, stagesOnly, f, name, decls).Ok?
    ensures FlattenDecls(env, stagesOnly, g, name, decls) == FlattenDecls(env, stagesOnly, f, name, decls)
    decreases f, 4, |decls|
  {
    if decls != [] {
      var decl := decls[|decls| - 1];
      FlattenDeclsMono(env, stagesOnly, f, g, name, decls[..|decls| - 1]);
      FlattenDeclMono(env, stagesOnly, f, g, name, decl.0, decl.1);
    }
  }

  lemma {:induction false} FlattenDeclMono(env: Env, stagesOnly: bool, f: nat, g: nat, name: string,
                                           key: string, body: Value)
    requires f <= g && FlattenDecl(env, stagesOnly, f, name, key, body).Ok?
    ensures FlattenDecl(env, stagesOnly, g, name, key, body) == FlattenDecl(env, stagesOnly, f, name, key, body)
    decreases f, 3
  {
    if key == "include" {
      FlattenIncludesMono(env, stagesOnly, f, g, name, Iterate(body).value);
    } else if body.Dict? {
      FlattenFunsMono(env, stagesOnly, f, g, key, body.entries);
    }
  }

  lemma {:induction false} FlattenIncludesMono(env: Env, stagesOnly: bool, f: nat, g: nat, parent: string,
                                               incs: seq<Value>)
    requires f <= g && FlattenIncludes(env, stagesOnly, f, parent, incs).Ok?
    ensures FlattenIncludes(env, stagesOnly, g, parent, incs) == FlattenIncludes(env, stagesOnly, f, parent, incs)
    decreases f, 2, |incs|
  {
    if incs != [] {
      var inc := incs[|incs| - 1];
      FlattenIncludesMono(env, stagesOnly, f, g, parent, incs[..|incs| - 1]);
      FlattenMono(env, stagesOnly, f, g, IncludeTarget(parent, inc.s, env.isDir(parent)));
    }
  }

  lemma {:induction false} FlattenFunsMono(env: Env, stagesOnly: bool, f: nat, g: nat, desc: string,
                                           funs: seq<(string, Value)>)
    requires f <= g && FlattenFuns(env, stagesOnly, f, desc, funs).Ok?
    ensures FlattenFuns(env, stagesOnly, g, desc, funs) == FlattenFuns(env, stagesOnly, f, desc, funs)
    decreases f, 2, |funs|
  {
    if funs != [] {
      var call := funs[|funs| - 1];
      FlattenFunsMono(env, stagesOnly, f, g, desc, funs[..|funs| - 1]);
      FlattenCallMono(env, stagesOnly, f, g, desc, call.0, call.1);
    }
  }

  lemma {:induction false} FlattenCallMono(env: Env, stagesOnly: bool, f: nat, g: nat, desc: string,
                                           fun: string, args: Value)
    requires f <= g && FlattenCall(env, stagesOnly, f, desc, fun, args).Ok?
    ensures FlattenCall(env, stagesOnly, g, desc, fun, args) == FlattenCall(env, stagesOnly, f, desc, fun, args)
    decreases f, 1
  {
    var rec := NewStep(desc, fun, args).value;
    if fun == "salt.state" {
      FlattenMono(env, stagesOnly, f, g, rec.kind.state.s);
    }
  }

  /** `xs` is what the reference flattening of `name` gives at some depth. */
  ghost predicate Reaches(env: Env, stagesOnly: bool, name: string, xs: seq<StepRec>)
  {
    exists f: nat :: Flatten(env, stagesOnly, f, name) == Ok(xs)
  }

  /** Every cache entry holds what its state flattens to. */
  ghost predicate Sound(env: Env, cache: Cache)
  {
    forall k :: k in cache ==> Reaches(env, k.stagesOnly, k.name, cache[k])
  }

  /** The cache is transparent: from a sound cache, an expansion leaves a
      sound cache behind, and a result it returns is the reference
      flattening of the state at depth `f`. */
  lemma {:induction false} ExpandSound(env: Env, cfg: Config, fuel: nat, name: string, st: Store)
    returns (f: nat)
    requires Sound(env, st.cache)
    ensures Sound(env, Expand(env, cfg, fuel, name, st).store.cache)
    ensures Expand(env, cfg, fuel, name, st).result.Ok? ==>
              Flatten(env, cfg.stagesOnly, f, name) == Expand(env, cfg, fuel, name, st).result
    decreases fuel, 0
  {
    f := 1;
    var key := CacheKey(cfg.stagesOnly, name);
    if fuel == 0 || (cfg.stagesOnly && !InStages(name)) {
    } else if cfg.useCache && key in st.cache {
      assert Reaches(env, key.stagesOnly, key.name, st.cache[key]);
      var g: nat :| Flatten(env, cfg.stagesOnly, g, name) == Ok(st.cache[key]);
      f := g;
    } else if Locate(env, name).Ok? {
      var loc := Locate(env, name).value;
      var st1 := st.(rendered := st.rendered + [loc]);
      if env.render(loc).Dict? {
        var decls := env.render(loc).entries;
        var g := ExpandDeclsSound(env, cfg, fuel - 1, name, decls, st1);
        f := g + 1;
        var r := ExpandDecls(env, cfg, fuel - 1, name, decls, st1);
        if cfg.useCache && r.result.Ok? {
          assert Flatten(env, cfg.stagesOnly, f, name) == r.result;
          assert Reaches(env, key.stagesOnly, key.name, r.result.value);
        }
      }
    }
  }

  lemma {:induction false} ExpandDeclsSound(env: Env, cfg: Config, fuel: nat, name: string,
                                            decls: seq<(string, Value)>, st: Store) returns (f: nat)
    requires Sound(env, st.cache)
    ensures Sound(env, ExpandDecls(env, cfg, fuel, name, decls, st).store.cache)
    ensures ExpandDecls(env, cfg, fuel, name, decls, st).result.Ok? ==>
              FlattenDecls(env, cfg.stagesOnly, f, name, decls) == ExpandDecls(env, cfg, fuel, name, decls, st).result
    decreases fuel, 4, |decls|
  {
    f := 0;
    if decls != [] {
      var prefix := decls[..|decls| - 1];
      var decl := decls[|decls| - 1];
      var f1 := ExpandDeclsSound(env, cfg, fuel, name, prefix, st);
      var prev := ExpandDecls(env, cfg, fuel, name, prefix, st);
      if prev.result.Ok? {
        var f2 := ExpandDeclSound(env, cfg, fuel, name, decl.0, decl.1, prev.store);
        if ExpandDecl(env, cfg, fuel, name, decl.0, decl.1, prev.store).result.Ok? {
          f := if f1 < f2 then f2 else f1;
          FlattenDeclsMono(env, cfg.stagesOnly, f1, f, name, prefix);
          FlattenDeclMono(env, cfg.stagesOnly, f2, f, name, decl.0, decl.1);
        }
      }
    }
  }

  lemma {:induction false} ExpandDeclSound(env: Env, cfg: Config, fuel: nat, name: string,
                                           key: string, body: Value, st: Store) returns (f: nat)
    requires Sound(env, st.cache)
    ensures Sound(env, ExpandDecl(env, cfg, fuel, name, key, body, st).store.cache)
    ensures ExpandDecl(env, cfg, fuel, name, key, body, st).result.Ok? ==>
              FlattenDecl(env, cfg.stagesOnly, f, name, key, body) == ExpandDecl(env, cfg, fuel, name, key, body, st).result
    decreases fuel, 3
  {
    f := 0;
    if key == "include" {
      if Iterate(body).Ok? {
        f := ExpandIncludesSound(env, cfg, fuel, name, Iterate(body).value, st);
      }
    } else if body.Dict? {
      f := ExpandFunsSound(env, cfg, fuel, key, body.entries, st);
    }
  }

  lemma {:induction false} ExpandIncludesSound(env: Env, cfg: Config, fuel: nat, parent: string,
                                               incs: seq<Value>, st: Store) returns (f: nat)
    requires Sound(env, st.cache)
    ensures Sound(env, ExpandIncludes(env, cfg, fuel, parent, incs, st).store.cache)
    ensures ExpandIncludes(env, cfg, fuel, parent, incs, st).result.Ok? ==>
              FlattenIncludes(env, cfg.stagesOnly, f, parent, incs) == ExpandIncludes(env, cfg, fuel, parent, incs, st).result
    decreases fuel, 2, |incs|
  {
    f := 0;
    if incs != [] {
      var prefix := incs[..|incs| - 1];
      var inc := incs[|incs| - 1];
      var f1 := ExpandIncludesSound(env, cfg, fuel, parent, prefix, st);
      var prev := ExpandIncludes(env, cfg, fuel, parent, prefix, st);
      if prev.result.Ok? && inc.Str? {
        var target := IncludeTarget(parent, inc.s, env.isDir(parent));
        var f2 := ExpandSound(env, cfg, fuel, target, prev.store);
        if Expand(env, cfg, fuel, target, prev.store).result.Ok? {
          f := if f1 < f2 then f2 else f1;
          FlattenIncludesMono(env, cfg.stagesOnly, f1, f, parent, prefix);
          FlattenMono(env, cfg.stagesOnly, f2, f, target);
        }
      }
    }
  }

  lemma {:induction false} ExpandFunsSound(env: Env, cfg: Config, fuel: nat, desc: string,
                                           funs: seq<(string, Value)>, st: Store) returns (f: nat)
    requires Sound(env, st.cache)
    ensures Sound(env, ExpandFuns(env, cfg, fuel, desc, funs, st).store.cache)
    ensures ExpandFuns(env, cfg, fuel, desc, funs, st).result.Ok? ==>
              FlattenFuns(env, cfg.stagesOnly, f, desc, funs) == ExpandFuns(env, cfg, fuel, desc, funs, st).result
    decreases fuel, 2, |funs|
  {
    f := 0;
    if funs != [] {
      var prefix := funs[..|funs| - 1];
      var call := funs[|funs| - 1];
      var f1 := ExpandFunsSound(env, cfg, fuel, desc, prefix, st);
      var prev := ExpandFuns(env, cfg, fuel, desc, prefix, st);
      if prev.result.Ok? {
        var f2 := ExpandCallSound(env, cfg, fuel, desc, call.0, call.1, prev.store);
        if ExpandCall(env, cfg, fuel, desc, call.0, call.1, prev.store).result.Ok? {
          f := if f1 < f2 then f2 else f1;
          FlattenFunsMono(env, cfg.stagesOnly, f1, f, desc, prefix);
          FlattenCallMono(env, cfg.stagesOnly, f2, f, desc, call.0, call.1);
        }
      }
    }
  }

  lemma {:induction false} ExpandCallSound(env: Env, cfg: Config, fuel: nat, desc: string,
                                           fun: string, args: Value, st: Store) returns (f: nat)
    requires Sound(env, st.cache)
    ensures Sound(env, ExpandCall(env, cfg, fuel, desc, fun, args, st).store.cache)
    ensures ExpandCall(env, cfg, fuel, desc, fun, args, st).result.Ok? ==>
              FlattenCall(env, cfg.stagesOnly, f, desc, fun, args) == ExpandCall(env, cfg, fuel, desc, fun, args, st).result
    decreases fuel, 1
  {
    f := 0;
    var rec := NewStep(desc, fun, args);
    if rec.Ok? && fun == "salt.state" && rec.value.kind.state.Str? {
      f := ExpandSound(env, cfg, fuel, rec.value.kind.state.s, st);
    }
  }

  /** From a sound cache, the cached expansion and the reference agree
      whenever both succeed, and so, by `ExpandUncached`, do the cached and
      the uncached expansion. */
  lemma CachedAgrees(env: Env, cfg: Config, fuel: nat, name: string, st: Store, g: nat)
    requires Sound(env, st.cache)
    requires Expand(env, cfg, fuel, name, st).result.Ok? && Flatten(env, cfg.stagesOnly, g, name).Ok?
    ensures Flatten(env, cfg.stagesOnly, g, name) == Expand(env, cfg, fuel, name, st).result
  {
    var f := ExpandSound(env, cfg, fuel, name, st);
    if f <= g {
      FlattenMono(env, cfg.stagesOnly, f, g, name);
    } else {
      FlattenMono(env, cfg.stagesOnly, g, f, name);
    }
  }

  /** The step each function call under `desc` constructs on its own. */
  function Classified(desc: string, funs: seq<(string, Value)>): (outs: seq<Result<StepRec>>)
    ensures |outs| == |funs|
  {
    seq(|funs|, i requires 0 <= i < |funs| => NewStep(desc, funs[i].0, funs[i].1))
  }

  /** Without `salt.state` calls there is no recursion: a state id yields one
      step per function call, in order, each classified by `NewStep`, or the
      first constructor failure. */
  lemma {:induction false} FlattenFunsPlain(env: Env, stagesOnly: bool, fuel: nat, desc: string,
                                            funs: seq<(string, Value)>)
    requires forall i :: 0 <= i < |funs| ==> funs[i].0 != "salt.state"
    ensures FlattenFuns(env, stagesOnly, fuel, desc, funs) == Collect(Classified(desc, funs))
    decreases |funs|
  {
    if funs != [] {
      var n := |funs| - 1;
      FlattenFunsPlain(env, stagesOnly, fuel, desc, funs[..n]);
      assert FlattenCall(env, stagesOnly, fuel, desc, funs[n].0, funs[n].1) ==
             (match NewStep(desc, funs[n].0, funs[n].1) case Err(e) => Err(e) case Ok(rec) => Ok([rec]));
      assert Classified(desc, funs) == Classified(desc, funs[..n]) + [NewStep(desc, funs[n].0, funs[n].1)];
      CollectSnoc(Classified(desc, funs[..n]), NewStep(desc, funs[n].0, funs[n].1));
    }
  }

  /** An exception in the first `k` declarations ends the loop there. */
  lemma {:induction false} ExpandDeclsStops(env: Env, cfg: Config, fuel: nat, name: string,
                                            decls: seq<(string, Value)>, k: nat, st: Store)
    requires k <= |decls| && ExpandDecls(env, cfg, fuel, name, decls[..k], st).result.Err?
    ensures ExpandDecls(env, cfg, fuel, name, decls, st) == ExpandDecls(env, cfg, fuel, name, decls[..k], st)
  {
    if k < |decls| {
      assert decls[..|decls| - 1][..k] == decls[..k];
      ExpandDeclsStops(env, cfg, fuel, name, decls[..|decls| - 1], k, st);
    } else {
      assert decls[..k] == decls;
    }
  }

  lemma {:induction false} ExpandIncludesStops(env: Env, cfg: Config, fuel: nat, parent: string,
                                               incs: seq<Value>, k: nat, st: Store)
    requires k <= |incs| && ExpandIncludes(env, cfg, fuel, parent, incs[..k], st).result.Err?
    ensures ExpandIncludes(env, cfg, fuel, parent, incs, st) == ExpandIncludes(env, cfg, fuel, parent, incs[..k], st)
  {
    if k < |incs| {
      assert incs[..|incs| - 1][..k] == incs[..k];
      ExpandIncludesStops(env, cfg, fuel, parent, incs[..|incs| - 1], k, st);
    } else {
      assert incs[..k] == incs;
    }
  }

  lemma {:induction false} ExpandFunsStops(env: Env, cfg: Config, fuel: nat, desc: string,
                                           funs: seq<(string, Value)>, k: nat, st: Store)
    requires k <= |funs| && ExpandFuns(env, cfg, fuel, desc, funs[..k], st).result.Err?
    ensures ExpandFuns(env, cfg, fuel, desc, funs, st) == ExpandFuns(env, cfg, fuel, desc, funs[..k], st)
  {
    if k < |funs| {
      assert funs[..|funs| - 1][..k] == funs[..k];
      ExpandFunsStops(env, cfg, fuel, desc, funs[..|funs| - 1], k, st);
    } else {
      assert funs[..k] == funs;
    }
  }
}
