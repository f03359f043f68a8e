/** Requisite linking: `SLSParser._search_step` and the linking pass of
    `SLSParser.parse_state_steps`, which resolves each step's `require`,
    `watch`, `onchanges` and `onfail` arguments to other steps of the list. */
module Linker {
  import opened Values
  import opened StateNames
  import opened Steps

  /** Python's `fun[:fun.find('.')]`: the text before the first dot, or, when
      there is no dot, `fun` without its last character (`find` answers -1). */
  function ModulePrefix(fun: string): (r: string)
    ensures !DotFree(fun) ==> DotFree(r) && |r| < |fun| && fun[..|r|] == r && fun[|r|] == '.'
    ensures DotFree(fun) && fun != "" ==> r == fun[..|fun| - 1]
    ensures fun == "" ==> r == ""
  {
    FindDotSpec(fun);
    var i := FindDot(fun);
    if i >= 0 then fun[..i]
    else if fun == "" then ""
    else fun[..|fun| - 1]
  }

  /** The module filter of `_search_step`. A hint that is `None` or empty
      lets every step through; otherwise runner and state steps pass only
      the hint `salt`, and other steps only the module prefix of their
      function. A module step whose `fun` is no string raises. */
  function PassesHint(rec: StepRec, hint: Option<string>): (r: Result<bool>)
    ensures r.Err? <==> hint.Some? && hint.value != "" && rec.kind.SaltModule? && !rec.kind.fun.Str?
    ensures hint.None? || hint.value == "" ==> r == Ok(true)
    ensures (rec.kind.SaltRunner? || rec.kind.SaltState?) && hint.Some? && hint.value != "" ==>
              r == Ok(hint.value == "salt")
    ensures rec.kind.SaltBuiltIn? && hint.Some? && hint.value != "" ==>
              r == Ok(hint.value == ModulePrefix(rec.kind.funName))
    ensures rec.kind.SaltModule? && rec.kind.fun.Str? && hint.Some? && hint.value != "" ==>
              r == Ok(hint.value == ModulePrefix(rec.kind.fun.s))
  {
    if hint.None? || hint.value == "" then Ok(true)
    else
      match rec.kind
      case SaltRunner(_) => Ok(hint.value == "salt")
      case SaltState(_, _) => Ok(hint.value == "salt")
      case SaltModule(f) => if f.Str? then Ok(hint.value == ModulePrefix(f.s)) else Err(TypeError)
      case SaltBuiltIn(f) => Ok(hint.value == ModulePrefix(f))
  }

  /** The name test of `_search_step`: the step's description is the id, or
      its `name` argument is truthy and equal to it. */
  function NameMatches(rec: StepRec, sid: Value): (r: Result<bool>)
    ensures r.Err? <==> GetArg(rec.args, "name").Err?
    ensures r.Ok? ==> (r.value <==> Str(rec.desc) == sid ||
                                     (Truthy(GetArg(rec.args, "name").value) && GetArg(rec.args, "name").value == sid))
  {
    match GetArg(rec.args, "name")
    case Err(e) => Err(e)
    case Ok(n) => Ok(Str(rec.desc) == sid || (Truthy(n) && n == sid))
  }

  /** One iteration of the search loop: the filter, and the name test for a
      step the filter lets through. */
  function Matches(rec: StepRec, hint: Option<string>, sid: Value): Result<bool>
  {
    match PassesHint(rec, hint)
    case Err(e) => Err(e)
    case Ok(pass) => if pass then NameMatches(rec, sid) else Ok(false)
  }

  /** What one iteration of the search loop yields for each step. */
  function Outcomes(recs: seq<StepRec>, hint: Option<string>, sid: Value): (outs: seq<Result<bool>>)
    ensures |outs| == |recs|
  {
    seq(|recs|, j requires 0 <= j < |recs| => Matches(recs[j], hint, sid))
  }

  /** The search loop from position `i` on, over the outcomes of its
      iterations: the first match, or the first exception. Outcomes after
      the first match or exception are never looked at. */
  function FirstMatch(outs: seq<Result<bool>>, i: nat): (r: Result<Option<nat>>)
    requires i <= |outs|
    ensures r.Ok? && r.value.Some? ==> i <= r.value.value < |outs|
    decreases |outs| - i
  {
    if i == |outs| then Ok(None)
    else
      match outs[i]
      case Err(e) => Err(e)
      case Ok(hit) => if hit then Ok(Some(i)) else FirstMatch(outs, i + 1)
  }

  /** `_search_step(steps, mod_name, sid)`: the position of the first step
      that passes the filter and the name test, `None` when no step does, or
      the exception an earlier step raised. */
  function SearchStep(recs: seq<StepRec>, hint: Option<string>, sid: Value): (r: Result<Option<nat>>)
    ensures r.Ok? && r.value.Some? ==> r.value.value < |recs|
  {
    FirstMatch(Outcomes(recs, hint, sid), 0)
  }

  /** The search stops at a match preceded only by misses. */
  lemma {:induction false} FirstMatchAt(outs: seq<Result<bool>>, i: nat, m: nat)
    requires i <= m < |outs| && outs[m] == Ok(true)
    requires forall j :: i <= j < m ==> outs[j] == Ok(false)
    ensures FirstMatch(outs, i) == Ok(Some(m))
    decreases m - i
  {
    if i < m {
      FirstMatchAt(outs, i + 1, m);
    }
  }

  /** The search stops at an exception preceded only by misses. */
  lemma {:induction false} FirstMatchRaises(outs: seq<Result<bool>>, i: nat, m: nat)
    requires i <= m < |outs| && outs[m].Err?
    requires forall j :: i <= j < m ==> outs[j] == Ok(false)
    ensures FirstMatch(outs, i) == Err(outs[m].error)
    decreases m - i
  {
    if i < m {
      FirstMatchRaises(outs, i + 1, m);
    }
  }

  /** The search finds nothing exactly when every step misses. */
  lemma {:induction false} FirstMatchNone(outs: seq<Result<bool>>, i: nat)
    requires i <= |outs|
    ensures FirstMatch(outs, i) == Ok(None) <==> forall j :: i <= j < |outs| ==> outs[j] == Ok(false)
    decreases |outs| - i
  {
    if i < |outs| {
      FirstMatchNone(outs, i + 1);
    }
  }

  /** The search's answer is the first step that matches. */
  lemma SearchStepFirstMatch(recs: seq<StepRec>, hint: Option<string>, sid: Value, m: nat)
    requires m < |recs| && Matches(recs[m], hint, sid) == Ok(true)
    requires forall j :: 0 <= j < m ==> Matches(recs[j], hint, sid) == Ok(false)
    ensures SearchStep(recs, hint, sid) == Ok(Some(m))
  {
    FirstMatchAt(Outcomes(recs, hint, sid), 0, m);
  }

  /** A step that raises before any match ends the search with its
      exception. */
  lemma SearchStepRaises(recs: seq<StepRec>, hint: Option<string>, sid: Value, m: nat)
    requires m < |recs| && Matches(recs[m], hint, sid).Err?
    requires forall j :: 0 <= j < m ==> Matches(recs[j], hint, sid) == Ok(false)
    ensures SearchStep(recs, hint, sid) == Err(Matches(recs[m], hint, sid).error)
  {
    FirstMatchRaises(Outcomes(recs, hint, sid), 0, m);
  }

  /** The search answers `None` exactly when every step misses. */
  lemma SearchStepNone(recs: seq<StepRec>, hint: Option<string>, sid: Value)
    ensures SearchStep(recs, hint, sid) == Ok(None) <==>
              forall j :: 0 <= j < |recs| ==> Matches(recs[j], hint, sid) == Ok(false)
  {
    FirstMatchNone(Outcomes(recs, hint, sid), 0);
    assert forall j :: 0 <= j < |recs| ==> Outcomes(recs, hint, sid)[j] == Matches(recs[j], hint, sid);
  }

  /** One lookup a requisite asks for: a `(mod, sid)` pair of a dict entry,
      or a bare entry searched with no module hint. */
  datatype Request = Request(hint: Option<string>, sid: Value)

  function EntryRequests(entry: Value): (rs: seq<Request>)
    ensures entry.Dict? ==> (|rs| == |entry.entries| &&
              forall k :: 0 <= k < |rs| ==> rs[k] == Request(Some(entry.entries[k].0), entry.entries[k].1))
    ensures !entry.Dict? ==> rs == [Request(None, entry)]
  {
    if entry.Dict? then
      seq(|entry.entries|, k requires 0 <= k < |entry.entries| =>
        Request(Some(entry.entries[k].0), entry.entries[k].1))
    else [Request(None, entry)]
  }

  /** The lookups of a list of entries, entry after entry. */
  function RequestsOf(entries: seq<Value>): seq<Request>
  {
    if entries == [] then []
    else RequestsOf(entries[..|entries| - 1]) + EntryRequests(entries[|entries| - 1])
  }

  /** The lookups of the first entries come first. */
  lemma {:induction false} RequestsOfPrefix(entries: seq<Value>, k: nat)
    requires k <= |entries|
    ensures RequestsOf(entries[..k]) <= RequestsOf(entries)
  {
    if k < |entries| {
      var n := |entries| - 1;
      RequestsOfPrefix(entries[..n], k);
      assert entries[..n][..k] == entries[..k];
    } else {
      assert entries[..k] == entries;
    }
  }

  lemma RequestsOfSnoc(entries: seq<Value>, i: nat)
    requires i < |entries|
    ensures RequestsOf(entries[..i + 1]) == RequestsOf(entries[..i]) + EntryRequests(entries[i])
  {
    assert entries[..i + 1][..i] == entries[..i];
  }

  /** The lookups `process_requisite_directive` makes for `directive`: none
      when the argument is falsy, and a value that is no list is taken as a
      one-entry list. */
  function Requests(rec: StepRec, directive: string): (r: Result<seq<Request>>)
    ensures r.Err? <==> GetArg(rec.args, directive).Err?
    ensures r.Ok? && !Truthy(GetArg(rec.args, directive).value) ==> r.value == []
    ensures r.Ok? && Truthy(GetArg(rec.args, directive).value) && !GetArg(rec.args, directive).value.List? ==>
              r.value == EntryRequests(GetArg(rec.args, directive).value)
  {
    match GetArg(rec.args, directive)
    case Err(e) => Err(e)
    case Ok(req) =>
      if !Truthy(req) then Ok([])
      else if req.List? then Ok(RequestsOf(req.items))
      else
        assert [req][..0] == [];
        assert RequestsOf([req]) == [] + EntryRequests(req);
        Ok(RequestsOf([req]))
  }

  /** The step a lookup finds; finding none fails the parser's assertion. */
  function Find(recs: seq<StepRec>, req: Request): (r: Result<nat>)
    ensures r.Ok? ==> r.value < |recs|
  {
    match SearchStep(recs, req.hint, req.sid)
    case Err(e) => Err(e)
    case Ok(None) => Err(AssertionFailed)
    case Ok(Some(j)) => Ok(j)
  }

  function Finds(recs: seq<StepRec>, reqs: seq<Request>): (outs: seq<Result<nat>>)
    ensures |outs| == |reqs|
  {
    seq(|reqs|, k requires 0 <= k < |reqs| => Find(recs, reqs[k]))
  }

  /** The positions the lookups resolve to, in order, or the first failure. */
  function Resolve(recs: seq<StepRec>, reqs: seq<Request>): Result<seq<nat>>
  {
    Collect(Finds(recs, reqs))
  }

  /** Resolution succeeds with `found` exactly when every lookup finds a
      step, and `found` lists those steps in lookup order. */
  lemma ResolveExactly(recs: seq<StepRec>, reqs: seq<Request>, found: seq<nat>)
    ensures Resolve(recs, reqs) == Ok(found) <==>
              |found| == |reqs| &&
              forall k :: 0 <= k < |reqs| ==> SearchStep(recs, reqs[k].hint, reqs[k].sid) == Ok(Some(found[k]))
  {
    CollectExactly(Finds(recs, reqs), found);
  }

  /** Every position resolution yields names a step of the list. */
  lemma ResolveInRange(recs: seq<StepRec>, reqs: seq<Request>)
    requires Resolve(recs, reqs).Ok?
    ensures forall k :: 0 <= k < |Resolve(recs, reqs).value| ==> Resolve(recs, reqs).value[k] < |recs|
  {
    CollectExactly(Finds(recs, reqs), Resolve(recs, reqs).value);
  }

  /** A lookup that finds nothing, after lookups that all found their step,
      fails the parser's assertion. */
  lemma ResolveUnresolved(recs: seq<StepRec>, reqs: seq<Request>, k: nat)
    requires k < |reqs| && SearchStep(recs, reqs[k].hint, reqs[k].sid) == Ok(None)
    requires forall j :: 0 <= j < k ==> SearchStep(recs, reqs[j].hint, reqs[j].sid).Ok? &&
                                         SearchStep(recs, reqs[j].hint, reqs[j].sid).value.Some?
    ensures Resolve(recs, reqs) == Err(AssertionFailed)
  {
    CollectRaisesAt(Finds(recs, reqs), k);
  }

  /** Resolving two runs of lookups one after the other. */
  lemma ResolveConcat(recs: seq<StepRec>, a: seq<Request>, b: seq<Request>)
    ensures Resolve(recs, a + b) ==
              match Resolve(recs, a)
              case Err(e) => Err(e)
              case Ok(f) => (match Resolve(recs, b) case Err(e) => Err(e) case Ok(g) => Ok(f + g))
  {
    assert Finds(recs, a + b) == Finds(recs, a) + Finds(recs, b);
    CollectConcat(Finds(recs, a), Finds(recs, b));
  }

  /** Once a lookup fails, resolution fails with its error. */
  lemma ResolvePrefixFails(recs: seq<StepRec>, reqs: seq<Request>, k: nat)
    requires k <= |reqs| && Resolve(recs, reqs[..k]).Err?
    ensures Resolve(recs, reqs) == Resolve(recs, reqs[..k])
  {
    assert reqs == reqs[..k] + reqs[k..];
    ResolveConcat(recs, reqs[..k], reqs[k..]);
  }

  /** A failure among the first lookups is the failure of all of them. */
  lemma ResolveExtends(recs: seq<StepRec>, a: seq<Request>, b: seq<Request>)
    requires a <= b && Resolve(recs, a).Err?
    ensures Resolve(recs, b) == Resolve(recs, a)
  {
    assert b[..|a|] == a;
    ResolvePrefixFails(recs, b, |a|);
  }

  /** Resolving one more lookup. */
  lemma ResolveSnoc(recs: seq<StepRec>, reqs: seq<Request>, req: Request)
    ensures Resolve(recs, reqs + [req]) ==
              match Resolve(recs, reqs)
              case Err(e) => Err(e)
              case Ok(found) => (match Find(recs, req) case Err(e) => Err(e) case Ok(j) => Ok(found + [j]))
  {
    assert Finds(recs, reqs + [req]) == Finds(recs, reqs) + [Find(recs, req)];
    CollectSnoc(Finds(recs, reqs), Find(recs, req));
  }

  /** The directives the linking pass reads, in the order it reads them. */
  const Directives: seq<string> := ["require", "watch", "onchanges", "onfail"]

  /** Directives whose matches are success dependencies. */
  predicate OnSuccess(directive: string)
  {
    directive == "require" || directive == "watch" || directive == "onchanges"
  }

  /** The two dependency lists of one step, as positions in the step list. */
  datatype Deps = Deps(onSuccess: seq<nat>, onFail: seq<nat>)

  const NoDeps: Deps := Deps([], [])

  /** Every position names one of `n` steps. */
  predicate InRange(found: seq<nat>, n: nat)
  {
    forall k :: 0 <= k < |found| ==> found[k] < n
  }

  /** The positions `directive` of `rec` resolves to. */
  function DirectiveDeps(recs: seq<StepRec>, rec: StepRec, directive: string): (r: Result<seq<nat>>)
    ensures r.Ok? ==> InRange(r.value, |recs|)
  {
    match Requests(rec, directive)
    case Err(e) => Err(e)
    case Ok(reqs) =>
      var r := Resolve(recs, reqs);
      if r.Ok? then ResolveInRange(recs, reqs); r else r
  }

  /** Where the matches of a directive are appended. */
  function Append(deps: Deps, directive: string, found: seq<nat>): Deps
  {
    if OnSuccess(directive) then deps.(onSuccess := deps.onSuccess + found)
    else if directive == "onfail" then deps.(onFail := deps.onFail + found)
    else deps
  }

  lemma AppendTwice(deps: Deps, directive: string, a: seq<nat>, b: seq<nat>)
    ensures Append(Append(deps, directive, a), directive, b) == Append(deps, directive, a + b)
  {
    assert deps.onSuccess + a + b == deps.onSuccess + (a + b);
    assert deps.onFail + a + b == deps.onFail + (a + b);
  }

  /** The dependencies `rec` gains from the directives `ds`, in order. */
  function LinkDirectives(recs: seq<StepRec>, rec: StepRec, ds: seq<string>): (r: Result<Deps>)
    ensures r.Ok? ==> InRange(r.value.onSuccess, |recs|) && InRange(r.value.onFail, |recs|)
  {
    if ds == [] then Ok(NoDeps)
    else
      var d := ds[|ds| - 1];
      match LinkDirectives(recs, rec, ds[..|ds| - 1])
      case Err(e) => Err(e)
      case Ok(deps) =>
        match DirectiveDeps(recs, rec, d)
        case Err(e) => Err(e)
        case Ok(found) => Ok(Append(deps, d, found))
  }

  lemma LinkDirectivesSnoc(recs: seq<StepRec>, rec: StepRec, ds: seq<string>, d: string)
    ensures LinkDirectives(recs, rec, ds + [d]) ==
              match LinkDirectives(recs, rec, ds)
              case Err(e) => Err(e)
              case Ok(deps) =>
                (match DirectiveDeps(recs, rec, d) case Err(e) => Err(e) case Ok(found) => Ok(Append(deps, d, found)))
  {
    assert (ds + [d])[..|ds|] == ds;
  }

  /** Once a directive fails, the step fails with that error. */
  lemma {:induction false} LinkDirectivesFailure(recs: seq<StepRec>, rec: StepRec, ds: seq<string>, k: nat)
    requires k <= |ds| && LinkDirectives(recs, rec, ds[..k]).Err?
    ensures LinkDirectives(recs, rec, ds) == LinkDirectives(recs, rec, ds[..k])
  {
    if k < |ds| {
      assert ds[..|ds| - 1][..k] == ds[..k];
      LinkDirectivesFailure(recs, rec, ds[..|ds| - 1], k);
    } else {
      assert ds[..k] == ds;
    }
  }

  /** The dependencies of the step at position `i`. */
  function StepDeps(recs: seq<StepRec>, i: nat): Result<Deps>
    requires i < |recs|
  {
    LinkDirectives(recs, recs[i], Directives)
  }

  /** A step links exactly when its four directives all resolve; its success
      dependencies are those of `require`, `watch` and `onchanges` in that
      order, and its failure dependencies those of `onfail`. */
  lemma StepDepsByDirective(recs: seq<StepRec>, i: nat)
    requires i < |recs|
    ensures var rec := recs[i];
            var req := DirectiveDeps(recs, rec, "require");
            var wat := DirectiveDeps(recs, rec, "watch");
            var chg := DirectiveDeps(recs, rec, "onchanges");
            var fail := DirectiveDeps(recs, rec, "onfail");
            (StepDeps(recs, i).Ok? <==> req.Ok? && wat.Ok? && chg.Ok? && fail.Ok?) &&
            (StepDeps(recs, i).Ok? ==>
               StepDeps(recs, i).value == Deps(req.value + wat.value + chg.value, fail.value))
  {
    var rec := recs[i];
    var req := DirectiveDeps(recs, rec, "require");
    var wat := DirectiveDeps(recs, rec, "watch");
    var chg := DirectiveDeps(recs, rec, "onchanges");
    var fail := DirectiveDeps(recs, rec, "onfail");
    var d1, d2, d3 := ["require"], ["require", "watch"], ["require", "watch", "onchanges"];
    LinkDirectivesSnoc(recs, rec, [], "require");
    assert [] + ["require"] == d1;
    LinkDirectivesSnoc(recs, rec, d1, "watch");
    assert d1 + ["watch"] == d2;
    LinkDirectivesSnoc(recs, rec, d2, "onchanges");
    assert d2 + ["onchanges"] == d3;
    LinkDirectivesSnoc(recs, rec, d3, "onfail");
    assert d3 + ["onfail"] == Directives;
    if req.Ok? && wat.Ok? && chg.Ok? && fail.Ok? {
      assert LinkDirectives(recs, rec, d1) == Ok(Deps(req.value, [])) by {
        assert [] + req.value == req.value;
      }
      assert LinkDirectives(recs, rec, d2) == Ok(Deps(req.value + wat.value, []));
      assert LinkDirectives(recs, rec, d3) == Ok(Deps(req.value + wat.value + chg.value, []));
      assert LinkDirectives(recs, rec, Directives) == Ok(Deps(req.value + wat.value + chg.value, fail.value)) by {
        assert [] + fail.value == fail.value;
      }
    }
  }

  /** What the linking pass computes for each of the first `n` steps. */
  function StepOutcomes(recs: seq<StepRec>, n: nat): (outs: seq<Result<Deps>>)
    requires n <= |recs|
    ensures |outs| == n
  {
    seq(n, i requires 0 <= i < n => StepDeps(recs, i))
  }

  /** The linking pass over the first `n` steps: their dependencies, or the
      first failure. */
  function Links(recs: seq<StepRec>, n: nat): Result<seq<Deps>>
    requires n <= |recs|
  {
    Collect(StepOutcomes(recs, n))
  }

  /** Linking succeeds exactly when every step links, and then records each
      step's own dependencies. */
  lemma LinksExactly(recs: seq<StepRec>, n: nat, ds: seq<Deps>)
    requires n <= |recs|
    ensures Links(recs, n) == Ok(ds) <==>
              |ds| == n && forall i :: 0 <= i < n ==> StepDeps(recs, i) == Ok(ds[i])
  {
    CollectExactly(StepOutcomes(recs, n), ds);
  }

  /** The pass stops at the first step that fails to link, with its error. */
  lemma LinksFailAt(recs: seq<StepRec>, i: nat)
    requires i < |recs| && StepDeps(recs, i).Err?
    requires forall j :: 0 <= j < i ==> StepDeps(recs, j).Ok?
    ensures Links(recs, |recs|) == Err(StepDeps(recs, i).error)
  {
    CollectRaisesAt(StepOutcomes(recs, |recs|), i);
  }

  /** Linking one more step. */
  lemma LinksSnoc(recs: seq<StepRec>, n: nat)
    requires n < |recs|
    ensures Links(recs, n + 1) ==
              match Links(recs, n)
              case Err(e) => Err(e)
              case Ok(ds) => (match StepDeps(recs, n) case Err(e) => Err(e) case Ok(d) => Ok(ds + [d]))
  {
    assert StepOutcomes(recs, n + 1) == StepOutcomes(recs, n) + [StepDeps(recs, n)];
    CollectSnoc(StepOutcomes(recs, n), StepDeps(recs, n));
  }

  /** The step objects at the given positions. */
  function At(steps: seq<Step>, found: seq<nat>): (r: seq<Step>)
    requires InRange(found, |steps|)
    ensures |r| == |found| && forall k :: 0 <= k < |found| ==> r[k] == steps[found[k]]
  {
    seq(|found|, k requires 0 <= k < |found| => steps[found[k]])
  }

  lemma AtConcat(steps: seq<Step>, a: seq<nat>, b: seq<nat>)
    requires InRange(a, |steps|) && InRange(b, |steps|)
    ensures InRange(a + b, |steps|) && At(steps, a + b) == At(steps, a) + At(steps, b)
  {
  }

  /** The dependency lists `onSuccess` and `onFail` of a step are the lists
      it started with, `onSuccess0` and `onFail0`, followed by the steps
      `deps` names. */
  predicate Holds(onSuccess: seq<Step>, onFail: seq<Step>, steps: seq<Step>,
                  onSuccess0: seq<Step>, onFail0: seq<Step>, deps: Deps)
  {
    InRange(deps.onSuccess, |steps|) && InRange(deps.onFail, |steps|) &&
    onSuccess == onSuccess0 + At(steps, deps.onSuccess) &&
    onFail == onFail0 + At(steps, deps.onFail)
  }

  /** A directive that resolves to nothing leaves both lists as they are. */
  lemma HoldsNothing(s0: seq<Step>, f0: seq<Step>, steps: seq<Step>, directive: string)
    ensures Holds(s0, f0, steps, s0, f0, Append(NoDeps, directive, []))
  {
    assert s0 + [] == s0 && f0 + [] == f0;
  }

  /** Appending a directive's matches to lists that already hold `deps`. */
  lemma HoldsAppend(steps: seq<Step>, s0: seq<Step>, f0: seq<Step>, deps: Deps,
                    s1: seq<Step>, f1: seq<Step>, s2: seq<Step>, f2: seq<Step>,
                    directive: string, found: seq<nat>)
    requires InRange(found, |steps|)
    requires Holds(s1, f1, steps, s0, f0, deps)
    requires Holds(s2, f2, steps, s1, f1, Append(NoDeps, directive, found))
    ensures Holds(s2, f2, steps, s0, f0, Append(deps, directive, found))
  {
    assert At(steps, []) == [];
    assert [] + found == found;
    if OnSuccess(directive) {
      AtConcat(steps, deps.onSuccess, found);
      Extend(s0, At(steps, deps.onSuccess), At(steps, found), s1, s2);
      Extend(f0, At(steps, deps.onFail), [], f1, f2);
    } else if directive == "onfail" {
      AtConcat(steps, deps.onFail, found);
      Extend(s0, At(steps, deps.onSuccess), [], s1, s2);
      Extend(f0, At(steps, deps.onFail), At(steps, found), f1, f2);
    } else {
      Extend(s0, At(steps, deps.onSuccess), [], s1, s2);
      Extend(f0, At(steps, deps.onFail), [], f1, f2);
    }
  }

  lemma Extend(x0: seq<Step>, a: seq<Step>, b: seq<Step>, x1: seq<Step>, x2: seq<Step>)
    requires x1 == x0 + a && x2 == x1 + b
    ensures x2 == x0 + (a + b)
  {
  }

  /** Appending one match to the list a directive feeds. */
  lemma HoldsSnoc(steps: seq<Step>, s0: seq<Step>, f0: seq<Step>, directive: string,
                  found: seq<nat>, j: nat, s1: seq<Step>, f1: seq<Step>, s2: seq<Step>, f2: seq<Step>)
    requires j < |steps| && InRange(found, |steps|)
    requires Holds(s1, f1, steps, s0, f0, Append(NoDeps, directive, found))
    requires s2 == if OnSuccess(directive) then s1 + [steps[j]] else s1
    requires f2 == if !OnSuccess(directive) && directive == "onfail" then f1 + [steps[j]] else f1
    ensures InRange(found + [j], |steps|)
    ensures Holds(s2, f2, steps, s0, f0, Append(NoDeps, directive, found + [j]))
  {
    assert [] + (found + [j]) == ([] + found) + [j];
    AtConcat(steps, [] + found, [j]);
  }

  /** The lookups of one requisite entry: each `(mod, sid)` pair of a dict,
      or the entry itself. Every match is appended to the list `directive`
      feeds as soon as it is found. */
  method LinkEntry(steps: seq<Step>, step: Step, directive: string, entry: Value) returns (r: Result<()>)
    modifies step
    ensures var spec := Resolve(Records(steps), EntryRequests(entry));
            (r.Ok? <==> spec.Ok?) && (r.Err? ==> r.error == spec.error) &&
            (r.Ok? ==> Holds(step.onSuccessDeps, step.onFailDeps, steps, old(step.onSuccessDeps),
                             old(step.onFailDeps), Append(NoDeps, directive, spec.value)))
  {
    var recs := Records(steps);
    var reqs := EntryRequests(entry);
    ghost var found: seq<nat> := [];
    HoldsNothing(step.onSuccessDeps, step.onFailDeps, steps, directive);
    var j := 0;
    while j < |reqs|
      invariant j <= |reqs|
      invariant Resolve(recs, reqs[..j]) == Ok(found)
      invariant InRange(found, |steps|)
      invariant Holds(step.onSuccessDeps, step.onFailDeps, steps, old(step.onSuccessDeps),
                      old(step.onFailDeps), Append(NoDeps, directive, found))
    {
      ResolveSnoc(recs, reqs[..j], reqs[j]);
      assert reqs[..j + 1] == reqs[..j] + [reqs[j]];
      var hit := SearchStep(recs, reqs[j].hint, reqs[j].sid);
      if hit.Err? || hit.value.None? {
        ResolvePrefixFails(recs, reqs, j + 1);
        return Err(if hit.Err? then hit.error else AssertionFailed);
      }
      var dep := steps[hit.value.value];
      ghost var s1, f1 := step.onSuccessDeps, step.onFailDeps;
      if OnSuccess(directive) {
        step.onSuccessDeps := step.onSuccessDeps + [dep];
      } else if directive == "onfail" {
        step.onFailDeps := step.onFailDeps + [dep];
      }
      HoldsSnoc(steps, old(step.onSuccessDeps), old(step.onFailDeps), directive, found, hit.value.value,
                s1, f1, step.onSuccessDeps, step.onFailDeps);
      found := found + [hit.value.value];
      j := j + 1;
    }
    assert reqs[..j] == reqs;
    return Ok(());
  }

  /** The entries `process_requisite_directive` walks: none for a falsy
      argument, and a value that is no list stands for a one-entry list. */
  lemma DirectiveDepsOfArg(recs: seq<StepRec>, rec: StepRec, directive: string)
    requires GetArg(rec.args, directive).Ok?
    ensures var req := GetArg(rec.args, directive).value;
            DirectiveDeps(recs, rec, directive) ==
              if !Truthy(req) then Ok([]) else Resolve(recs, RequestsOf(if req.List? then req.items else [req]))
  {
    assert Collect(Finds(recs, [])) == Ok([]);
  }

  /** The loop of `process_requisite_directive` over the entries of the
      argument, entry after entry. */
  method LinkEntries(steps: seq<Step>, step: Step, directive: string, entries: seq<Value>) returns (r: Result<()>)
    modifies step
    ensures var spec := Resolve(Records(steps), RequestsOf(entries));
            (r.Ok? <==> spec.Ok?) && (r.Err? ==> r.error == spec.error) &&
            (r.Ok? ==> Holds(step.onSuccessDeps, step.onFailDeps, steps, old(step.onSuccessDeps),
                             old(step.onFailDeps), Append(NoDeps, directive, spec.value)))
  {
    var recs := Records(steps);
    ghost var found: seq<nat> := [];
    HoldsNothing(step.onSuccessDeps, step.onFailDeps, steps, directive);
    assert Resolve(recs, RequestsOf(entries[..0])) == Ok([]) by {
      assert entries[..0] == [];
    }
    var i := 0;
    while i < |entries|
      invariant i <= |entries|
      invariant Resolve(recs, RequestsOf(entries[..i])) == Ok(found)
      invariant InRange(found, |steps|)
      invariant Holds(step.onSuccessDeps, step.onFailDeps, steps, old(step.onSuccessDeps),
                      old(step.onFailDeps), Append(NoDeps, directive, found))
    {
      RequestsOfSnoc(entries, i);
      ResolveConcat(recs, RequestsOf(entries[..i]), EntryRequests(entries[i]));
      ghost var s1, f1 := step.onSuccessDeps, step.onFailDeps;
      var e := LinkEntry(steps, step, directive, entries[i]);
      if e.Err? {
        RequestsOfPrefix(entries, i + 1);
        ResolveExtends(recs, RequestsOf(entries[..i + 1]), RequestsOf(entries));
        return Err(e.error);
      }
      ghost var more := Resolve(recs, EntryRequests(entries[i])).value;
      ResolveInRange(recs, EntryRequests(entries[i]));
      HoldsAppend(steps, old(step.onSuccessDeps), old(step.onFailDeps), Append(NoDeps, directive, found),
                  s1, f1, step.onSuccessDeps, step.onFailDeps, directive, more);
      AppendTwice(NoDeps, directive, found, more);
      AtConcat(steps, found, more);
      found := found + more;
      i := i + 1;
    }
    assert entries[..i] == entries;
    return Ok(());
  }

  /** `process_requisite_directive(step, directive)` within the step list
      `steps`: every lookup `directive` asks for is searched in `steps` and
      its match appended to the list the directive feeds. Only that list of
      `step` changes. */
  method ProcessDirective(steps: seq<Step>, step: Step, directive: string) returns (r: Result<()>)
    modifies step
    ensures var spec := DirectiveDeps(Records(steps), step.Record(), directive);
            (r.Ok? <==> spec.Ok?) && (r.Err? ==> r.error == spec.error) &&
            (r.Ok? ==> Holds(step.onSuccessDeps, step.onFailDeps, steps, old(step.onSuccessDeps),
                             old(step.onFailDeps), Append(NoDeps, directive, spec.value)))
  {
    var arg := GetArg(step.args, directive);
    if arg.Err? {
      return Err(arg.error);
    }
    DirectiveDepsOfArg(Records(steps), step.Record(), directive);
    var req := arg.value;
    if !Truthy(req) {
      HoldsNothing(step.onSuccessDeps, step.onFailDeps, steps, directive);
      return Ok(());
    }
    r := LinkEntries(steps, step, directive, if req.List? then req.items else [req]);
  }

  /** The directives of one step, in order. Only that step changes. */
  method LinkStep(steps: seq<Step>, i: nat) returns (r: Result<()>)
    requires i < |steps|
    modifies steps[i]
    ensures var spec := StepDeps(Records(steps), i);
            (r.Ok? <==> spec.Ok?) && (r.Err? ==> r.error == spec.error) &&
            (r.Ok? ==> Holds(steps[i].onSuccessDeps, steps[i].onFailDeps, steps,
                             old(steps[i].onSuccessDeps), old(steps[i].onFailDeps), spec.value))
  {
    var recs := Records(steps);
    var step := steps[i];
    ghost var deps := NoDeps;
    assert old(step.onSuccessDeps) + [] == old(step.onSuccessDeps);
    assert old(step.onFailDeps) + [] == old(step.onFailDeps);
    var d := 0;
    while d < |Directives|
      invariant d <= |Directives|
      invariant LinkDirectives(recs, recs[i], Directives[..d]) == Ok(deps)
      invariant Holds(step.onSuccessDeps, step.onFailDeps, steps, old(step.onSuccessDeps),
                      old(step.onFailDeps), deps)
    {
      var directive := Directives[d];
      LinkDirectivesSnoc(recs, recs[i], Directives[..d], directive);
      assert Directives[..d + 1] == Directives[..d] + [directive];
      ghost var s1, f1 := step.onSuccessDeps, step.onFailDeps;
      var e := ProcessDirective(steps, step, directive);
      if e.Err? {
        LinkDirectivesFailure(recs, recs[i], Directives, d + 1);
        return Err(e.error);
      }
      ghost var found := DirectiveDeps(recs, recs[i], directive).value;
      HoldsAppend(steps, old(step.onSuccessDeps), old(step.onFailDeps), deps, s1, f1,
                  step.onSuccessDeps, step.onFailDeps, directive, found);
      deps := Append(deps, directive, found);
      d := d + 1;
    }
    assert Directives[..d] == Directives;
    return Ok(());
  }

  /** The linking loop of `parse_state_steps`: each step in turn. Only the
      dependency lists change; on success each step holds what it held
      before followed by the steps its directives resolve to. */
  method LinkSteps(steps: seq<Step>) returns (r: Result<()>)
    requires Distinct(steps)
    modifies steps
    ensures var spec := Links(Records(steps), |steps|);
            (r.Ok? <==> spec.Ok?) && (r.Err? ==> r.error == spec.error) &&
            (r.Ok? ==> forall i :: 0 <= i < |steps| ==>
               Holds(steps[i].onSuccessDeps, steps[i].onFailDeps, steps,
                     old(steps[i].onSuccessDeps), old(steps[i].onFailDeps), spec.value[i]))
  {
    var recs := Records(steps);
    ghost var ds: seq<Deps> := [];
    var i := 0;
    while i < |steps|
      invariant i <= |steps|
      invariant Links(recs, i) == Ok(ds)
      invariant forall k :: 0 <= k < i ==>
                  Holds(steps[k].onSuccessDeps, steps[k].onFailDeps, steps,
                        old(steps[k].onSuccessDeps), old(steps[k].onFailDeps), ds[k])
      invariant forall k :: i <= k < |steps| ==>
                  steps[k].onSuccessDeps == old(steps[k].onSuccessDeps) &&
                  steps[k].onFailDeps == old(steps[k].onFailDeps)
    {
      var e := LinkStep(steps, i);
      LinksSnoc(recs, i);
      if e.Err? {
        LinksExactly(recs, i, ds);
        LinksFailAt(recs, i);
        return Err(e.error);
      }
      ds := ds + [StepDeps(recs, i).value];
      i := i + 1;
    }
    return Ok(());
  }
}
