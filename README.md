# DeepSea stage parser, in Dafny

This project models the stage-file parser of DeepSea's command line
(`cli/stage_parser.py`). Given a root Salt state name such as `ceph.stage.1`,
the parser does three things:

- it expands the state into the flat, ordered list of steps its execution
  triggers, following `include` lists and `salt.state` calls recursively;
- it classifies each step as a `SaltState`, `SaltRunner`, `SaltModule` or
  `SaltBuiltIn`;
- it links each step's requisites (`require`, `watch`, `onchanges`,
  `onfail`) to the steps they name.

Modules, one file each:

- `values.dfy` (`Values`): the YAML/Python values a rendered state file is
  made of.
  - Dicts are insertion-ordered sequences of pairs.
  - Python's `in`, iteration, `d[k] = v` and truthiness are spelled out.
    `in` and iteration raise `TypeError` on the wrong kind of value.
  - `SaltStep.get_arg` is here.
  - The exceptions are a `Result` datatype.
- `state_names.dfy` (`StateNames`): `_gen_state_name_from_include`.
  - The dot-counting loop is a method, proved equal to the function
    `IncludeTarget`.
  - Lemmas state what that function does to the parent's segments.
- `steps.dfy` (`Steps`): the four step classes.
  - A `Step` is a class. Its description, arguments and kind are constants;
    its two dependency lists are fields that the linking pass appends to.
  - `NewStep` is what the constructors compute.
  - `SaltBuiltIn`'s argument loop is a method, proved equal to the fold
    `FoldArgs`, which is proved to keep each key's last write.
- `linker.dfy` (`Linker`): `_search_step` and the linking pass of
  `parse_state_steps`.
  - On values: `SearchStep` is a first-match search, and `Resolve`,
    `DirectiveDeps`, `StepDeps` and `Links` compute, as positions, the
    dependencies each step gains.
  - On the heap: `LinkEntry`, `LinkEntries`, `ProcessDirective`, `LinkStep`
    and `LinkSteps` append to the step objects' lists, and are proved to
    append exactly the steps at those positions. Only those lists change.
- `expansion.dfy` (`Expansion`): `_traverse_state` as a function.
  - `Expand` threads an explicit store: the cache map, plus the log of the
    files rendered.
  - `Flatten` is a cache-free reference definition of the same expansion.
  - Lemmas prove:
    - that `Expand` without the cache is `Flatten`;
    - that a sound cache stays sound;
    - that a cached result is the one a fresh expansion would give.
- `parser.dfy` (`Parser`): `SLSParser`.
  - The class holds the environment (filesystem and renderer) and the cache
    as a field.
  - Its `Traverse*` methods build the step objects with loops. Each is
    proved against the matching `Expand*` function.
  - `ParseStateSteps` runs the traversal and then the linking pass.

The filesystem (`_state_name_is_dir`, `os.path.exists`) and the Salt
renderer are parameters of the model, held in an `Env`:

- `isDir` says whether a state name is a directory under the Salt root;
- `present` says whether a file exists;
- `render` returns the value the renderer gives for a file.

The pickle cache files are a map keyed by `(stages_only, state_name)`. Python's
recursion limit is a fuel bound: when it runs out, the result is
`RecursionLimit`.

The docstring of `_gen_state_name_from_include` (`cli/stage_parser.py:89-97`)
says that `ceph.stage.4` including `..iscsi` gives `ceph.stage.iscsi`. The
code (`cli/stage_parser.py:100-115`) gives that answer when `ceph.stage.4`
is a directory, as it is in DeepSea. When `ceph.stage.4` is a file, the code
gives `ceph.iscsi`. The directory `ceph.stage` including `.openattic` gives
`ceph.stage.openattic`. The model follows the code:
`StateNames.TwoDotInclude` and `StateNames.OneDotInclude` state its answers.

## Model

| member | source | states |
|---|---|---|
| Values.Contains | cli/stage_parser.py:289-292 | `key in container` answers for dicts, lists and strings and raises `TypeError` exactly for any other value |
| Values.Iterate | cli/stage_parser.py:349 | iterating a value succeeds exactly for dicts, lists and strings; a list yields its items |
| Values.MatchingFirst | cli/stage_parser.py:292-294 | the comprehension `[arg for arg in args if key in arg]` raises exactly when some element is not a container; it is empty exactly when no element holds the key, and otherwise starts with the first element that does |
| Values.GetArg | cli/stage_parser.py:284-297 | `get_arg` fails its `assert False` exactly when the arguments are neither a dict nor a list |
| Values.GetArgOfDict | cli/stage_parser.py:288-290 | for dict arguments, `get_arg` returns the stored value when the key is present and `None` otherwise |
| Values.GetArgOfMaps | cli/stage_parser.py:291-294 | for a list of dicts, `get_arg` returns the value in the first dict holding the key, and `None` when none does |
| Values.SetLookup | cli/stage_parser.py:352 | after `d[k] = v`, `d[k]` is `v` and every other key reads as before |
| Values.SetKeepsKeysDistinct | cli/stage_parser.py:352 | `d[k] = v` never makes a key occur twice |
| StateNames.FindDotSpec | cli/stage_parser.py:196 | `find('.')` is -1 exactly when there is no dot, and otherwise the position of the first dot |
| StateNames.JoinSplit | cli/stage_parser.py:113 | `'.'.join(s.split('.'))` gives back `s` |
| StateNames.SplitJoin | cli/stage_parser.py:113 | splitting the join of dot-free segments gives back the segments |
| StateNames.SplitDotFree | cli/stage_parser.py:113 | every segment `split('.')` yields is dot-free |
| StateNames.SplitAround | cli/stage_parser.py:113-115 | the segments of `a.b` are those of `a` followed by those of `b` |
| StateNames.LeadingDots | cli/stage_parser.py:100-106 | the counted prefix is all dots, and the character after it, if any, is not a dot |
| StateNames.DropLast | cli/stage_parser.py:113 | `parts[:-k]` is a prefix of `parts` that is `k` segments shorter, or empty when `k` exceeds the length |
| StateNames.GenStateName | cli/stage_parser.py:86-115 | the dot-counting loop computes the include target: dots stripped, one more level for a file parent, that many levels less one dropped from the parent |
| StateNames.IncludeTargetSegments | cli/stage_parser.py:106-115 | in segments, the target keeps all but the last `ascent - 1` parent segments (all of them when the ascent is at most one), then appends the undotted reference |
| StateNames.TwoDotInclude | cli/stage_parser.py:86-115 | `..r` from `a.b.c` gives `a.b.r` for a directory parent and `a.r` for a file parent |
| StateNames.OneDotInclude | cli/stage_parser.py:107-115 | `.r` from `a.b` gives `a.b.r` for a directory parent and `a.r` for a file parent |
| Steps.SetAllLookup | cli/stage_parser.py:351-352 | storing the pairs of one dict argument makes each key read its last pair's value and leaves other keys alone |
| Steps.FoldArgsLookup | cli/stage_parser.py:348-354 | the built-in's dict maps every key to its last write among the arguments (`nokey` for non-dict arguments), and holds no other key |
| Steps.FoldArgsKeysDistinct | cli/stage_parser.py:348-354 | the built-in's dict never holds a key twice |
| Steps.NewStep | cli/stage_parser.py:300-354 | the class is selected by `fun`; a state step's `state` and `target` are `get_arg('sls')` and `get_arg('tgt')`, and a runner's or module's `fun` is `get_arg('name')`, each constructor failing exactly when one of those calls does (the `get_arg` assertion exactly for arguments that are neither dict nor list); these keep `desc` and `args`; any other function is a built-in, which succeeds exactly for iterable arguments and stores a dict |
| Steps.BuiltInArgs | cli/stage_parser.py:345-354 | a built-in step's stored arguments are a dict with distinct keys, each mapped to its last write |
| Steps.SaltStateOfMaps | cli/stage_parser.py:304-307 | with the usual list of one-key dicts, a state step succeeds, and its `state` is the `sls` of the first dict holding one |
| Steps.Step.constructor | cli/stage_parser.py:275-279 | a new step holds the given description, arguments and kind, and empty dependency lists |
| Steps.FoldBuiltInArgs | cli/stage_parser.py:348-354 | the nested loop of `SaltBuiltIn.__init__` builds exactly the fold `FoldArgs` |
| Steps.StoreAll | cli/stage_parser.py:350-352 | the inner loop stores exactly the pairs of one dict, in order |
| Steps.NewStepObject | cli/stage_parser.py:159-169 | the constructor call succeeds exactly when `NewStep` does, with its error otherwise, and yields a fresh step with that record and no dependencies |
| Linker.ModulePrefix | cli/stage_parser.py:196 | `fun[:fun.find('.')]` is the text before the first dot, or `fun` without its last character when there is no dot |
| Linker.PassesHint | cli/stage_parser.py:188-198 | a falsy hint lets every step through; runner and state steps pass only the hint `salt`; module and built-in steps pass exactly when the hint is `fun[:fun.find('.')]`; a module step whose `fun` is no string raises |
| Linker.NameMatches | cli/stage_parser.py:199-200 | a step matches when its description is the id, or when its `name` argument is truthy and equal to the id; it raises exactly when `get_arg` does |
| Linker.SearchStep | cli/stage_parser.py:179-202 | a step the search returns is a position in the list |
| Linker.FirstMatchAt | cli/stage_parser.py:187-202 | the search loop stops at a match preceded only by misses |
| Linker.FirstMatchRaises | cli/stage_parser.py:187-202 | the search loop stops at an exception preceded only by misses |
| Linker.FirstMatchNone | cli/stage_parser.py:187-202 | the search loop finds nothing exactly when every step misses |
| Linker.SearchStepFirstMatch | cli/stage_parser.py:179-202 | `_search_step` returns the first step that passes the filter and matches the name |
| Linker.SearchStepRaises | cli/stage_parser.py:179-202 | a step that raises before any match ends the search with its exception |
| Linker.SearchStepNone | cli/stage_parser.py:179-202 | `_search_step` returns `None` exactly when every step misses |
| Linker.EntryRequests | cli/stage_parser.py:230-240 | a dict entry asks for one lookup per `(mod, sid)` pair, in order; any other entry asks for one lookup with no hint |
| Linker.Requests | cli/stage_parser.py:222-230 | a falsy requisite asks for nothing, a non-list requisite is one entry, and a failing `get_arg` is the error |
| Linker.Find | cli/stage_parser.py:233-234 | a step a lookup finds is a position in the list |
| Linker.ResolveExactly | cli/stage_parser.py:230-245 | the lookups resolve to `found` exactly when every lookup finds the step at the matching position of `found` |
| Linker.ResolveInRange | cli/stage_parser.py:233-245 | every resolved dependency is an element of the step list |
| Linker.ResolveUnresolved | cli/stage_parser.py:233-241 | a lookup that finds nothing after successful lookups fails the assertion |
| Linker.ResolveConcat | cli/stage_parser.py:230-245 | the lookups of two runs of entries resolve in order, the second only when the first succeeds |
| Linker.ResolvePrefixFails | cli/stage_parser.py:230-245 | once a lookup fails, the directive fails with that error |
| Linker.DirectiveDeps | cli/stage_parser.py:218-245 | the positions a directive resolves to are all steps of the list |
| Linker.LinkDirectives | cli/stage_parser.py:249-250 | the dependencies a step gains name steps of the list |
| Linker.LinkDirectivesFailure | cli/stage_parser.py:249-250 | once a directive fails, the step fails with that error |
| Linker.StepDepsByDirective | cli/stage_parser.py:235-250 | a step links exactly when its four directives all resolve; its success list is then the matches of `require`, `watch` and `onchanges`, in that order, and its failure list those of `onfail` |
| Linker.LinksExactly | cli/stage_parser.py:248-250 | the linking pass succeeds exactly when every step links, and records each step's dependencies |
| Linker.LinksFailAt | cli/stage_parser.py:248-250 | the pass stops at the first step that fails to link, with its error |
| Linker.HoldsNothing | cli/stage_parser.py:223 | a falsy requisite leaves both dependency lists as they are |
| Linker.HoldsSnoc | cli/stage_parser.py:235-245 | appending a match adds it to the list its directive feeds and leaves the other list alone |
| Linker.LinkEntry | cli/stage_parser.py:230-245 | one requisite entry fails exactly when its lookups do; otherwise the step's lists gain exactly the matched steps, in order |
| Linker.DirectiveDepsOfArg | cli/stage_parser.py:222-230 | a directive's lookups are those of no entry for a falsy value, of the list's items for a list, and of the value itself otherwise |
| Linker.LinkEntries | cli/stage_parser.py:230-245 | the loop over a requisite's entries fails with the first failing lookup's error; otherwise the lists gain exactly the matches of all entries, in order |
| Linker.ProcessDirective | cli/stage_parser.py:218-245 | `process_requisite_directive` fails exactly when `DirectiveDeps` does; otherwise the step's lists gain exactly the steps it resolves to |
| Linker.LinkStep | cli/stage_parser.py:249-250 | the four directives of one step give it exactly the dependencies `StepDeps` computes; no other step changes |
| Linker.LinkSteps | cli/stage_parser.py:248-252 | the pass fails exactly when `Links` does; otherwise each step's lists are its old lists followed by the steps at the positions `Links` computes; only dependency lists change |
| Expansion.Locate | cli/stage_parser.py:67-83 | the file of a state is `init.sls` under a directory and `<name>.sls` otherwise, and is `OrchestrationNotFound` exactly when that file does not exist |
| Expansion.Expand | cli/stage_parser.py:118-176 | a name outside `ceph.stage` with the filter on gives no steps and touches nothing; a cache hit returns the entry unchanged and renders nothing; a fresh result with the cache on is stored under `(stages_only, name)`; no cache entry or render is ever lost |
| Expansion.ExpandDecls | cli/stage_parser.py:147-169 | the loop over a state's declarations keeps every cache entry and render it started with |
| Expansion.ExpandDecl | cli/stage_parser.py:148-169 | one declaration keeps every cache entry and render it started with |
| Expansion.ExpandIncludes | cli/stage_parser.py:149-154 | the include loop keeps every cache entry and render it started with |
| Expansion.ExpandInclude | cli/stage_parser.py:152-154 | one include keeps every cache entry and render it started with |
| Expansion.ExpandFuns | cli/stage_parser.py:157-169 | the loop over a state id's calls keeps every cache entry and render it started with |
| Expansion.ExpandCall | cli/stage_parser.py:159-169 | one call keeps every cache entry and render it started with |
| Expansion.ExpandUncached | cli/stage_parser.py:118-176 | with the cache off, `_traverse_state` gives exactly the reference flattening |
| Expansion.ExpandDeclsUncached | cli/stage_parser.py:147-169 | with the cache off, the declaration loop gives the reference flattening |
| Expansion.ExpandDeclUncached | cli/stage_parser.py:148-169 | with the cache off, one declaration gives the reference flattening |
| Expansion.ExpandIncludesUncached | cli/stage_parser.py:149-154 | with the cache off, the include loop gives the reference flattening |
| Expansion.ExpandFunsUncached | cli/stage_parser.py:157-169 | with the cache off, the call loop gives the reference flattening |
| Expansion.ExpandCallUncached | cli/stage_parser.py:159-169 | with the cache off, one call gives the reference flattening |
| Expansion.FlattenMono | cli/stage_parser.py:118-176 | an expansion that completes within a recursion depth gives the same steps with any greater depth |
| Expansion.FlattenDeclsMono | cli/stage_parser.py:147-169 | the declaration loop's result does not depend on extra recursion depth |
| Expansion.FlattenDeclMono | cli/stage_parser.py:148-169 | one declaration's result does not depend on extra recursion depth |
| Expansion.FlattenIncludesMono | cli/stage_parser.py:149-154 | the include loop's result does not depend on extra recursion depth |
| Expansion.FlattenFunsMono | cli/stage_parser.py:157-169 | the call loop's result does not depend on extra recursion depth |
| Expansion.FlattenCallMono | cli/stage_parser.py:159-169 | one call's result does not depend on extra recursion depth |
| Expansion.ExpandSound | cli/stage_parser.py:133-141 | from a cache whose every entry is what its state flattens to, an expansion leaves such a cache, and a result it returns is the reference flattening of the state |
| Expansion.ExpandDeclsSound | cli/stage_parser.py:171-174 | the declaration loop keeps the cache sound, and its result is the reference flattening |
| Expansion.ExpandDeclSound | cli/stage_parser.py:171-174 | one declaration keeps the cache sound, and its result is the reference flattening |
| Expansion.ExpandIncludesSound | cli/stage_parser.py:171-174 | the include loop keeps the cache sound, and its result is the reference flattening |
| Expansion.ExpandFunsSound | cli/stage_parser.py:171-174 | the call loop keeps the cache sound, and its result is the reference flattening |
| Expansion.ExpandCallSound | cli/stage_parser.py:171-174 | one call keeps the cache sound, and its result is the reference flattening |
| Expansion.CachedAgrees | cli/stage_parser.py:133-141 | with a sound cache, a cached or fresh expansion agrees with any reference flattening that completes |
| Expansion.FlattenFunsPlain | cli/stage_parser.py:157-169 | without `salt.state` calls, a state id yields one classified step per call, in declaration order, or the first constructor's exception |
| Expansion.ExpandDeclsStops | cli/stage_parser.py:147-169 | an exception in a declaration ends the whole expansion with it |
| Expansion.ExpandIncludesStops | cli/stage_parser.py:149-154 | an exception in an include ends the include loop with it |
| Expansion.ExpandFunsStops | cli/stage_parser.py:157-169 | an exception in a call ends the call loop with it |
| Parser.Unpickle | cli/stage_parser.py:140-141 | loading a cache entry yields fresh, distinct, unlinked step objects with the stored contents |
| Parser.SlsParser.constructor | cli/stage_parser.py:136-137 | a parser starts from the cache files already on disk, whatever they hold, and has rendered nothing |
| Parser.SlsParser.Traverse | cli/stage_parser.py:118-176 | `_traverse_state` returns fresh, distinct, unlinked step objects whose contents are those `Expand` computes, or its exception, and leaves the cache and render log as `Expand` does |
| Parser.SlsParser.TraverseDecls | cli/stage_parser.py:143-169 | the loop over the declarations builds exactly the steps `ExpandDecls` computes |
| Parser.SlsParser.TraverseDecl | cli/stage_parser.py:148-169 | one declaration builds exactly the steps `ExpandDecl` computes |
| Parser.SlsParser.TraverseIncludes | cli/stage_parser.py:149-154 | the include loop builds exactly the steps `ExpandIncludes` computes |
| Parser.SlsParser.TraverseInclude | cli/stage_parser.py:152-154 | one include builds exactly the steps `ExpandInclude` computes |
| Parser.SlsParser.TraverseFuns | cli/stage_parser.py:156-169 | the call loop builds exactly the steps `ExpandFuns` computes |
| Parser.SlsParser.TraverseCall | cli/stage_parser.py:159-169 | one call builds its step, then the steps of the state it applies, exactly as `ExpandCall` computes |
| Parser.SlsParser.ParseStateSteps | cli/stage_parser.py:205-252 | `parse_state_steps` fails with the expansion's or the linking pass's error; otherwise it returns fresh, distinct steps with the contents `Expand` computes, each holding exactly the dependencies its requisites resolve to; a cache hit is returned as stored; when every cache entry is sound it stays so and the steps are the reference flattening of the state |

## Left out

- The Salt renderer, the filesystem and the pickle files: the renderer is a function in `Env`, the filesystem two predicates, and the cache files a map. File names, `os.devnull` redirection and pickling are not modelled.
- `SLSParser.clean_cache` (`cli/stage_parser.py:254-268`): it deletes cache files matched by a glob pattern, which the in-memory cache map does not model.
- Parser.SlsParser.ParseStateSteps: cache files left by earlier runs may be stale, since nothing checks them against the current state files; such an entry is returned as it stands, and the agreement with the reference flattening is promised only for a sound cache.
- Logging, the `__str__` methods and the module-level Salt client configuration: they have no behaviour the parser depends on.
- `srv/modules/runners/select.py` is not part of this model: it is a thin wrapper over Salt network calls.
- Python's recursion limit: `fuel` stands for it, and running out of fuel is `RecursionLimit`. The exact depth at which Python stops is not modelled.
- Linker.NameMatches: compares values structurally, so Python's `1 == True` and the order-insensitive equality of dicts are not reproduced.
- Expansion.ExpandInclude: a non-string include reference raises `TypeError`, but in Python a list reference is sliced and formatted into a state name instead. The same applies to Parser.SlsParser.TraverseInclude.
- Expansion.ExpandCall: a non-string `sls` raises `TypeError`, but in Python, with `stages_only` off and the cache on, a cache file named after that value would be consulted first. The same applies to Parser.SlsParser.TraverseCall.
- Expansion.ExpandDecl: an `include` declaration iterates its own body. The source reads `state_dict['include']`, which is the same value as long as the rendered dict has no repeated key, as YAML mappings produced by the renderer do not.
- Values.Value: YAML keys are strings. Non-string mapping keys and floating-point values are not modelled.
- Expansion.Expand: its own contract speaks only of the filter, the cache and the store. What it returns is tied to the cache-free reference `Flatten` by `ExpandUncached` and `ExpandSound`.
- Expansion.ExpandDecls: its contract states only that the store grows. Its result is tied to `Flatten` by the matching `Uncached` and `Sound` lemmas.
- Expansion.ExpandDecl: its contract states only that the store grows. Its result is tied to `Flatten` by the matching `Uncached` and `Sound` lemmas.
- Expansion.ExpandIncludes: its contract states only that the store grows. Its result is tied to `Flatten` by the matching `Uncached` and `Sound` lemmas.
- Expansion.ExpandInclude: its contract states only that the store grows. Its result is tied to `Flatten` by the matching `Uncached` and `Sound` lemmas.
- Expansion.ExpandFuns: its contract states only that the store grows. Its result is tied to `Flatten` by the matching `Uncached` and `Sound` lemmas.
- Expansion.ExpandCall: its contract states only that the store grows. Its result is tied to `Flatten` by the matching `Uncached` and `Sound` lemmas.
