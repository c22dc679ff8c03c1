# argz, modelled in Dafny

argz turns a command line into a call of a Python function. Each function
registered with the `route` decorator becomes a *route*. Its formal parameters
become *arguments*: the trailing parameters with defaults are optional, a
boolean default makes a switch, and the type of a default becomes the
argument's adapter. `*args` and `**kwargs` become *collectors*.

Calling a route walks the tokens from left to right:

- A bare token binds the first parameter still unbound.
- `--name value` binds a declared parameter by name, or adds to `**kwargs`.
- `-name` flips a switch.
- Tokens left over after the declared parameters go to `*args`.

Once the tokens are used up, each unbound parameter is filled from its
fallback (parsed) or its default (as it is), or reported missing. The bound
values are then put in declaration order. Every raw value goes through the
argument's pipeline:

1. an optional split on a separator, with the piece count checked against min/max;
2. a validator;
3. a left-to-right chain of adapters;
4. for an unsplit value, a min/max check.

The registry (`TargetList`) holds the routes by name. `_parse` answers help
requests first. It then calls the only route with every token, or, with
several routes, the route named by the first token.

The source is written for Python 2 and partly runs on Python 3. Where the two
differ, the model takes the documented behaviour: an adapter or validator that
raises rejects the value. Comparing a value of another type with an int bound
fails with an uncaught error, as Python 3's `TypeError` does.

The Dafny modules follow that structure:

- `Wrappers` holds `Option` and `Result`.
- `Errors` holds the error taxonomy: `ArgumentRejectedError`, `ArgumentMissingError`, `MissingRouteError`, `RequestHelpError`, a plain `ArgzError`, and uncaught Python exceptions.
- `Values` holds Python values and the builtin `int`/`str`/`bool` conversions.
- `Text` holds `startswith`, `str.split` with a separator, and `lower`.
- `Pipeline` is the value pipeline as functions, plus the `_try_parsing` loop as a method.
- `Args` holds the `Arg`, `Varargs` and `Kwargs` classes. The collectors keep what they gathered between calls, as the original objects do.
- `Binding` holds the parameter table built by `Route.__init__` and the binder of `Route.__call__`. The binder is a step function over a run state (`Step`, `Drain`, `Resolve`, `Finish`, `Called`). The `Route` class runs the same loop in place and is proved to agree with `Called`.
- `BinderFacts` and `TableFacts` hold what the binder and the table promise.
- `Scenarios` binds the two routes of the repository's test suite end to end.
- `Registry` holds `TargetList` and the route selection of `_parse`.

## Model

| member | source | states |
|---|---|---|
| Values.AsNumber | argz.py:572-577 | A value compares with an int bound exactly when it is an int or a bool, and an int compares as itself. |
| Values.KindOf | argz.py:711-713 | The inferred adapter type is `bool`, `str` or `int` exactly when the default is a value of that type. |
| Values.Convert | argz.py:708-713 | Calling the builtin `k` that a default's type gives yields a value of type `k`. A value already of type `k` comes back unchanged, and `bool()` never raises. |
| Values.ParseInt | argz.py:708-713 | `int()` of a string succeeds exactly when the string is an optional sign followed by at least one ASCII digit. A string of digits alone reads as the number it denotes. |
| Values.IntTextRoundTrip | argz.py:392 | `int()` reads back the decimal text of every integer, and `int(str(n)) == n` for the builtin adapters. |
| Text.FindFrom | argz.py:582 | Finds the first occurrence of the separator at or after a position, or reports that there is none. |
| Text.Split | argz.py:582 | `str.split(sep)` always yields at least one piece. Without the separator the one piece is the whole string; otherwise the first piece ends at the leftmost occurrence, and the other pieces are the split of the text after it. |
| Text.SplitJoin | argz.py:582 | Joining the pieces of `str.split(sep)` with `sep` gives back the input. |
| Text.SplitPiecesAvoidSeparator | argz.py:582 | No piece of `str.split(sep)` contains the separator. |
| Text.SplitWithoutSeparator | argz.py:582 | A string without the separator splits into itself alone. |
| Text.Lower | argz.py:1028 | ASCII-only lowering: the length is kept, each upper-case ASCII letter becomes its lower-case letter, and every other character is kept. |
| Pipeline.Admits | argz.py:505-547 | No validator, an empty pattern or an empty choice list admits every value. A non-empty choice list admits exactly its members. |
| Pipeline.Adapt | argz.py:550-553 | The empty chain returns its input. When the last stage is a builtin type, a successful result is of that type. |
| Pipeline.Segment | argz.py:534-561 | One piece succeeds exactly when the validator admits it and the chain does not raise, and then the result is the chain's output. A refused piece is reported as failing validation, before any adapter runs. |
| Pipeline.ParseValue | argz.py:579-592 | With a split, a success is a list with one entry per piece, and the piece count is within the bounds. Without a split, a success is within the bounds, and a string the validator refuses is reported as failing validation. |
| Pipeline.Stages | argz.py:524-525 | No adapter is the empty chain, a single callable is a chain of one, and a list is the chain itself. |
| Pipeline.AdaptAppend | argz.py:550-553 | Running a chain `a + b` runs `a`, then feeds its output to `b`; a raise in `a` ends the chain. |
| Pipeline.AdaptStages | argz.py:524-553 | With no adapter the value is unchanged; with one adapter the result is that adapter's result; each stage feeds the next. |
| Pipeline.AdaptPrefixFails | argz.py:550-559 | Once a prefix of the chain has raised, the whole chain raises. |
| Pipeline.Segments | argz.py:527-563 | `_try_parsing` returns one value per input piece. |
| Pipeline.SegmentsPointwise | argz.py:534-561 | All pieces succeed exactly when each succeeds on its own. Each result sits at its piece's position. A failure is the failure of the first failing piece. |
| Pipeline.SegmentsSingle | argz.py:527-563 | A one-piece list succeeds or fails exactly as that piece does. |
| Pipeline.SegmentsPrefixFails | argz.py:534-561 | A failure in a prefix of the pieces is the failure of the whole list; later pieces are never looked at. |
| Pipeline.CheckRange | argz.py:565-577 | Succeeds with `v` unchanged exactly when `v` lies within the optional inclusive bounds. Below min is reported before above max. |
| Pipeline.SplitCountCheckedFirst | argz.py:582-586 | With a split, an out-of-range piece count fails before any validator or adapter runs, whatever they are. |
| Pipeline.SplitResult | argz.py:579-592 | With a split, the result is a list exactly when the count is in range and each piece is validated and adapted to its entry, in order. |
| Pipeline.ScalarResult | argz.py:579-592 | Without a split, the result is `v` exactly when the input passes the validator, the chain adapts it to `v`, and `v` is within the bounds. |
| Pipeline.PlainIsAdapterChain | argz.py:524-563 | With no validator, split or bounds, parsing is exactly the adapter chain applied to the string. |
| Pipeline.SplitMinExample | argz.py:582-584 | `"3,2,1"` split on `,` with min 2 gives three strings, and `"3"` is rejected as below min. |
| Pipeline.IntRangeExample | argz.py:586-590 | An int argument with bounds 1..10 rejects `"0"` as below min and reads `"5"` as 5. |
| Pipeline.Bulk | argz.py:624-628 | A collector's validator and chain run once on the whole collected value; it succeeds exactly when the validator admits the value and the chain does not raise. |
| Pipeline.RunAdapters | argz.py:549-553 | The loop that rebinds a piece through each adapter in turn computes `Adapt`: it returns the last output, or reports a raise. |
| Pipeline.TryParsing | argz.py:527-563 | The loop that validates each piece and then rebinds it through each adapter computes `Segments`. |
| Args.Arg.constructor | argz.py:417-435 | A new argument is required, with no fallback, a `None` default, and no validator, adapter, split or bounds. |
| Args.Arg.SetFallback | argz.py:444-451 | Setting a fallback stores it and makes the argument optional; nothing else changes. |
| Args.Arg.SetDefault | argz.py:456-459 | Setting a default stores it and makes the argument optional; nothing else changes. |
| Args.Arg.Parse | argz.py:579-592 | `parse` on the argument's current attributes is the pipeline outcome of those attributes. |
| Args.ParseWith | argz.py:579-592 | Split when `split` is truthy, check the count, run `_try_parsing`, then unwrap and check a single value: this is the pipeline outcome. |
| Args.ListCollected | argz.py:624-628 | `Varargs.parse` succeeds exactly when the validator admits the whole list and the chain returns a list, and then the result is that list. A chain that returns something else fails as not a list. With no validator or adapter the result is the collected strings. |
| Args.Varargs.constructor | argz.py:611-612 | A new varargs collector is empty and its argument has the initial settings. |
| Args.Varargs.Add | argz.py:621-622 | `add` appends the raw token at the end. |
| Args.Varargs.Parse | argz.py:624-628 | `parse` is the bulk outcome on the tokens collected so far. |
| Args.CollectList | argz.py:624-628 | The imperative `Varargs.parse` computes `ListCollected`. |
| Args.DictCollected | argz.py:655-659 | `Kwargs.parse` succeeds exactly when the validator admits the whole dict and the chain returns a dict, and then the result is that dict. A chain that returns something else fails as not a dict. With no validator or adapter the result is the collected strings under their names. |
| Args.Kwargs.constructor | argz.py:652-653 | A new kwargs collector is empty and its argument has the initial settings. |
| Args.Kwargs.Add | argz.py:646-650 | `add` fails exactly when the name was collected before, and then changes nothing. Otherwise it records the value under the name. |
| Args.Kwargs.Parse | argz.py:655-659 | `parse` is the bulk outcome on the pairs collected so far. |
| Args.CollectDict | argz.py:655-659 | The imperative `Kwargs.parse` computes `DictCollected`. |
| Binding.Unbound | argz.py:734 | The leftover list holds exactly the declared names not yet bound. |
| Binding.UnboundRemove | argz.py:814 | Binding a name removes it from the leftover list and keeps the others in order. |
| Binding.UnboundFirst | argz.py:777 | When the first `k` names are bound and the `k`-th is not, the `k`-th is the head of the leftover list. |
| Binding.Classify | argz.py:740-753 | A token is positional exactly when it does not start with `-`, and named exactly when it starts with `--`. The name is the rest after the dashes. |
| Binding.Bind | argz.py:833-839 | Binding a value adds exactly that name to the bound set and leaves the collectors alone. |
| Binding.PositionalStep | argz.py:765-780 | A bare token binds a leftover or goes to `*args`; a refusal changes nothing, and `**kwargs` is untouched. |
| Binding.UndeclaredStep | argz.py:759-807 | An undeclared name is refused or goes to `**kwargs`; `*args` is untouched. |
| Binding.DeclaredStep | argz.py:809-839 | A declared name binds that parameter or is refused; neither collector changes. |
| Binding.Step | argz.py:736-839 | One pass of the loop either refuses, with the state unchanged, or keeps the state well formed and only adds to it. |
| Binding.Drain | argz.py:736-839 | A loop that ends normally has used every token and leaves a well-formed state. |
| Binding.Covered | argz.py:734-839 | Every declared parameter is either bound or leftover, throughout the loop. |
| Binding.Resolve | argz.py:841-858 | Filling the leftovers binds exactly the bound names plus the leftovers, and keeps every earlier binding. |
| Binding.Ordered | argz.py:860-866 | The output list has one value per declared parameter, in declaration order. |
| Binding.Finish | argz.py:860-883 | A successful result starts with the declared values in declaration order. Its keyword map is empty when the route has no `**kwargs` or none were collected. `BinderFacts.FinishAssembles` states when it succeeds and what its keyword map holds. |
| Binding.Settled | argz.py:841-883 | When filling the leftovers fails, the call fails with that error. A success has at least one value per declared parameter. |
| Binding.Called | argz.py:731-885 | A successful call has at least one value per declared parameter. A call with no tokens leaves the collectors as they were. |
| Binding.Start | argz.py:734-735 | A call starts with every parameter leftover and nothing bound. |
| Binding.IndexOf | argz.py:863 | `names.index(n)` is the first position holding `n`. |
| Binding.Declared | argz.py:683-723 | The table built from a signature is coherent, holds the parameter names in order with one entry per name, and has a `*args` or `**kwargs` collector exactly when the signature names one, with the initial settings. `TableFacts.DeclaredAt` gives each entry's settings. |
| Binding.Shadowed | argz.py:725-729 | The reported names are exactly the parameters that collide with the route's own attributes. |
| Binding.DeclaredParam | argz.py:702-721 | The `i`-th parameter keeps its name. It is required exactly when it lies before the defaults, and otherwise holds its own default. It is a switch exactly when that default is a bool. It starts with no fallback, validator, split or bounds. Its adapter is the builtin type of its default when that default is a bool, str or int, and no adapter otherwise, including for a required parameter. |
| Binding.Declare | argz.py:702-721 | Builds a fresh argument with the settings the table gives the `i`-th parameter, a switch for a bool default. |
| Binding.DeclareAll | argz.py:698-723 | Builds one fresh argument per parameter name, each with its table settings. |
| Binding.DeclaredParams | argz.py:698-723 | Arguments with the table settings of each parameter snapshot to exactly the declared table. |
| Binding.NewKwargs | argz.py:686-688 | A `**kwargs` collector is made exactly when the signature names one; it is fresh, empty, and its argument has the initial settings under that name. |
| Binding.NewVarargs | argz.py:690-692 | A `*args` collector is made exactly when the signature names one; it is fresh, empty, and its argument has the initial settings under that name. |
| Binding.Route.constructor | argz.py:683-723 | A new route holds the declared table, in order, and empty, fresh collectors exactly for `*args` and `**kwargs`. |
| Binding.Route.BuiltDeclares | argz.py:694-723 | A freshly built route is valid, reads as the declared table, and has empty collectors. |
| Binding.Route.Current | argz.py:734 | The table the binder reads is the current settings of the route's arguments and collectors. |
| Binding.Route.TakePositional | argz.py:765-780 | The in-place positional step computes `PositionalStep` and appends to `*args` exactly as it says. |
| Binding.Route.TakeUndeclared | argz.py:781-807 | The in-place undeclared-name step computes `UndeclaredStep` and updates `**kwargs` exactly as it says. |
| Binding.Route.TakeDeclared | argz.py:809-839 | The in-place declared-name step computes `DeclaredStep`. |
| Binding.Route.Take | argz.py:740-839 | One in-place pass of the loop computes `Step`, including the collectors' new contents. |
| Binding.Route.Fill | argz.py:841-858 | The in-place leftover loop computes `Resolve`. |
| Binding.Route.Assemble | argz.py:860-883 | Building the positional list, appending parsed varargs and parsing kwargs computes `Finish`. |
| Binding.Route.Settle | argz.py:841-883 | Everything after the token loop computes `Settled`. |
| Binding.Route.Call | argz.py:731-885 | `__call__` returns the outcome of `Called` on the route's table and its collectors' earlier contents, leaves the collectors as `Called` says, and keeps the route valid. |
| Binding.Build | argz.py:694-729 | Building a route fails exactly when a parameter would shadow a route attribute, naming the first one. Otherwise the route is fresh, valid, reads as the declared table, and has empty collectors. |
| BinderFacts.ClassifyLong | argz.py:742-743 | `--name` is read as the name `name`. |
| BinderFacts.ClassifyShort | argz.py:745-748 | `-name` is read as the switch `name` when `name` does not itself start with a dash. |
| BinderFacts.PositionalTakesEarliest | argz.py:765-780 | A bare token binds the earliest declared parameter still unbound, whatever named tokens came before, by parsing the token with that parameter's settings. |
| BinderFacts.PositionalOverflows | argz.py:765-775 | With every parameter bound, a bare token goes to `*args`, or is refused when there is no `*args`. |
| BinderFacts.DashOnlyRefused | argz.py:755-757 | A bare `-` or `--` is refused. |
| BinderFacts.BoundTwiceRefused | argz.py:809-813 | A declared name already bound is refused in either form, so no parameter is bound twice. |
| BinderFacts.SwitchFlips | argz.py:822-825 | `-name` on an unbound switch binds the negation of its default and reads no further token. |
| BinderFacts.NotASwitchRefused | argz.py:816-820 | `-name` on a parameter that is not a switch is refused. |
| BinderFacts.NamedTakesNext | argz.py:822-839 | `--name` on an unbound parameter, switch or not, parses the next token; with no next token the value is reported missing. |
| BinderFacts.UndeclaredWithoutKwargs | argz.py:759-763 | Without `**kwargs`, an undeclared name is refused in either form. |
| BinderFacts.UndeclaredWithKwargs | argz.py:785-807 | With `**kwargs`, `--name value` records the value, a repeated name is refused, the switch form is refused, and a missing value is reported. |
| BinderFacts.ExtendsTrans | argz.py:736-839 | "Only adds" is transitive across passes of the loop. |
| BinderFacts.DrainExtends | argz.py:736-839 | The loop never unbinds a parameter nor removes anything from the collectors, whether it ends or stops. |
| BinderFacts.ResolveExact | argz.py:841-858 | Filling succeeds exactly when every leftover is optional with a fallback that parses; each then gets its parsed fallback, or else its default as it is. |
| BinderFacts.ResolveFirstFailure | argz.py:841-858 | The first leftover that cannot be filled decides the error: missing when required, otherwise its fallback's parse error. |
| BinderFacts.FinishShape | argz.py:860-883 | After the declared values, a successful result holds exactly the parsed `*args`, and nothing when the route has no `*args` or none were collected. |
| BinderFacts.FinishAssembles | argz.py:868-883 | Assembly succeeds exactly when the collected `*args` and `**kwargs` both parse, or are absent or empty. A varargs failure is the result, and otherwise a kwargs failure is. A success's keyword map is the parsed kwargs, or empty when none were collected. |
| BinderFacts.FinishOutcome | argz.py:841-879 | Once the leftovers are filled, every declared name has a value and no collected kwarg shares a name with one, so `FinishAssembles` applies to the call's result. |
| BinderFacts.KwargShadowNeverFires | argz.py:873-879 | The check that a kwarg shadows a bound parameter can never fire. |
| BinderFacts.CalledKeepsCollected | argz.py:606-663 | A call only adds to what the collectors held before it; collected kwargs keep their values. |
| TableFacts.DeclaredAt | argz.py:694-721 | The `i`-th parameter is required exactly when it lies before the defaults. Otherwise it holds its default, and it is a switch exactly when that default is a bool. Its adapter is the default's type when that is bool, str or int, and no adapter otherwise. It has no fallback, validator, split or bounds. |
| TableFacts.IndexOfDistinct | argz.py:863 | In a list of distinct names, `index` finds each name at its own position. |
| TableFacts.IndexedReadsOrdered | argz.py:860-866 | Keying each value by `names.index` of its name gives exactly the keys `0 .. len(names) - 1`. Reading them in sorted order gives the values in declaration order, as `Ordered` lists them. |
| TableFacts.OmittedDefaultFilled | argz.py:855-858 | An unbound parameter with a default receives that default as it is. |
| TableFacts.OmittedRequiredMissing | argz.py:844-848 | An unbound parameter without a default is reported missing. |
| TableFacts.BoolDefaultFlips | argz.py:714-721 | A parameter with a bool default is a switch: `-name` binds the negated default. |
| TableFacts.UndefaultedTakesText | argz.py:702-705 | A parameter without a default takes its token as the string it is. |
| TableFacts.IntDefaultReadsInts | argz.py:708-713 | A parameter with an int default reads the text of any int as that int. |
| Scenarios.DefaultFilledAtIndexOne | test.py:110-118 | `route_defarg` called with one token binds it to `reqarg` and fills `defarg` with 1. |
| Scenarios.RequiredMissing | test.py:48-49 | `route_defarg` called with no token reports `reqarg` missing. |
| Scenarios.AllowAllCollects | test.py:88-98 | `route_allow_all` called with two bare tokens returns both, in order, as varargs and no kwargs. |
| Scenarios.AllowAllAccumulates | argz.py:611-628 | A second call of `route_allow_all` returns the first call's varargs before its own, because the collector is never emptied. |
| Scenarios.AllowAllNamed | argz.py:785-807 | `route_allow_all` called with `--key value` returns `key` bound to the string `value` in kwargs. |
| Registry.Select | argz.py:1019-1048 | A chosen route is registered, the tokens are not empty and do not start with a help option, and the route gets every token or every token but the first. |
| Registry.NoTokensShowUsage | argz.py:1023-1025 | With routes but no tokens, the answer is the usage help. |
| Registry.HelpBeforeRouting | argz.py:1027-1035 | A help option is answered before any route is chosen: with a route's help exactly when the next token names a route, and otherwise with the detailed help. |
| Registry.LoneRouteTakesAll | argz.py:1037-1048 | A lone route is called with every token, even one that spells its own name. |
| Registry.FirstTokenNamesRoute | argz.py:1037-1046 | With several routes the call succeeds exactly when the first token names a route, which then gets the remaining tokens. Otherwise the token is reported as a missing route. |
| Registry.HelpOptionsLowerCase | argz.py:389 | Every help option is lower-case. |
| Registry.CapitalisedHelp | argz.py:1027-1028 | A first token that differs from a help option only in the case of its ASCII letters asks for help. |
| Registry.RegistryAdd | argz.py:953-963 | Adding a new name whose route has fresh collectors keeps the names distinct, the keys in step with the order, and each collector owned by one route. |
| Registry.DistinctCount | argz.py:968 | With distinct names, the number of routes is the length of the name list. |
| Registry.TargetList.constructor | argz.py:949-951 | A new registry is empty and valid. |
| Registry.TargetList.Add | argz.py:953-963 | Registration succeeds exactly when the name is new, is not a registry attribute, and no parameter shadows a route attribute. Each refusal raises its own error and changes nothing. Success appends the name and maps it to a fresh route. |
| Registry.TargetList.Insert | argz.py:962 | Storing a new route under a new name keeps the registry valid and appends the name. |
| Registry.TargetList.Separate | argz.py:953-963 | Two registered routes share no collector. |
| Registry.TargetList.DefaultRoute | argz.py:977-978 | There is a default route exactly when one route is registered, and it is that route. |
| Registry.TargetList.OthersKept | argz.py:953-963 | When only one route's collectors may have changed, every other route keeps its collected values and stays valid. |
| Registry.TargetList.Dispatch | argz.py:1050-1052 | Calling a registered route gives the outcome of `Called` for it. The registry stays as it was, and nothing outside that route's collectors changes. |
| Registry.TargetList.Parse | argz.py:1019-1052 | `_parse` fails as `Select` does before any route is touched. Otherwise it returns the chosen route's name with the outcome of `Called` on that route. Every other route keeps what it collected, and the registry stays valid. |

## Left out

- Logging: the handler setup, `ARGZ_LOG` and every `logger` call are diagnostics only.
- Token input: `_get_parts_from_args`, `sys.argv` and the `@file` marker are not modelled. Every route works on an already-split sequence of tokens.
- Introspection: `inspect.isfunction`, `getargspec`, `getsourcefile` and `warnings` are not modelled. A function is given as a `Signature` (parameter names, trailing defaults, optional `*args` and `**kwargs` names).
- Help and usage text: every `__str__`/`__repr__`, `_get_route_argshelp`, the printing in `parse` and the docstring/filename attributes are not modelled. A help request is modelled by which help it asks for.
- `go` and the top-level `parse` wrapper: invoking the target function and printing errors are foreign calls and I/O. `clear()` and the module-global `route` singleton are replaced by an explicit `TargetList` object.
- Dynamic accessors: `__getattr__`, `__getitem__`, `__dir__`, `__iter__`, `__len__` and `__bool__` become typed field reads.
- Values: floats, bytes and unicode are not modelled, so default-type inference covers `bool`, `str` and `int` only. `int()` reads an optional sign and ASCII digits; surrounding whitespace, underscores and non-ASCII digits are not modelled.
- Validators: a regular-expression validator is an uninterpreted match predicate. A raising validator is a plain rejection; the exception text, and the unbound `r` it can cause, are not modelled.
- Arguments are read as a snapshot when a call starts. An adapter or validator that changes an argument during a call is not modelled.
- The caller's `parts` list is consumed by value. The original pops from the very list the caller passed in.
- Output order: the original keys the bound values by `names.index` and sorts the keys. `Binding.Finish` builds the list directly in declaration order. `TableFacts.IndexedReadsOrdered` proves that the keyed map, read in key order, gives the same list.
- Kwargs order: the keyword result is a map; the original dict's insertion order is not modelled.
- Kwargs aliasing: with no adapter, `Kwargs.parse` returns the collector's own dict, so the `argkw` a call returns is the live collector. A later call that records another name also changes the dict an earlier call returned. The model returns the keyword map by value and does not capture this aliasing. `*args` is not affected, because its values are copied into the argument list.
- `Registry.TargetList.Parse` returns the route's name instead of the Python function object.
- `Args.Arg.SetFallback` takes a string, so the original's exception for a non-string fallback is not modelled.
- `Binding.Build` checks shadowed names before it creates the route's arguments. The original checks after creating them; since nothing escapes a failed construction, the outcome is the same.
- Python `assert` statements are modelled as uncaught failures, for example the `__name__` clash in `TargetList.__call__`. Running Python with `-O` removes them, and that is not modelled.
- Python versions: an adapter or validator that raises is a rejection, as documented at argz.py:87. Under Python 3, the reads of `e.message` at argz.py:541, 542, 557 and 559 raise `AttributeError` instead, and that is not modelled. A min/max comparison between an int bound and a value of another type is an uncaught failure, as in Python 3; Python 2's ordering of mixed types is not modelled.
- `Text.Lower`: lowers ASCII letters only; Unicode case mapping is not modelled. It matters only for a help option spelled with non-ASCII letters.
- `Values.Convert`: `str()` of a list or a dict is modelled as raising, where Python returns the value's text. Such a value reaches `str` only as a collector's whole list or dict, or as the output of an earlier adapter.
- `Registry.TargetList.Add`: does not restate the new route's table or its empty collectors. `Binding.Build`, which `Add` calls, states them.
