/**
  What the binder of argz.py `Route.__call__` promises, stated over the
  step functions of `Binding`: which parameter a bare token binds, when a
  named token is refused, how leftovers are filled, and the shape of what a
  successful call returns.
*/
module BinderFacts {
  import opened Wrappers
  import opened Values
  import opened Errors
  import opened Args
  import opened Binding
  import Text

  /** Reading `"--" + n` gives the name `n`. */
  lemma ClassifyLong(n: string)
    ensures Classify("--" + n) == Named(n)
  {
    assert ("--" + n)[..2] == "--";
    assert ("--" + n)[2..] == n;
  }

  /** Reading `"-" + n` gives the switch `n`, unless `n` itself starts with a dash. */
  lemma ClassifyShort(n: string)
    requires !Text.StartsWith(n, "-")
    ensures Classify("-" + n) == Switch(n)
  {
    var p := "-" + n;
    assert p[..1] == "-";
    assert p[1..] == n;
  }

  /**
    A bare token binds the earliest declared parameter not yet bound, by
    parsing the token with that parameter's settings, whatever named tokens
    came before it.
  */
  lemma {:induction false} PositionalTakesEarliest(t: Table, run: Run, k: nat)
    requires Wf(t, run) && run.rest != [] && !Text.StartsWith(run.rest[0], "-")
    requires k < |t.names| && t.names[k] !in run.parsed
    requires forall j :: 0 <= j < k ==> t.names[j] in run.parsed
    ensures var n := t.names[k];
      Step(t, run) ==
        match Parsed(t.params[n], run.rest[0])
        case Failure(e) => Stop(e, run)
        case Success(x) => Next(run.(rest := run.rest[1..], leftover := run.leftover[1..], parsed := run.parsed[n := x]))
  {
    UnboundFirst(t.names, run.parsed.Keys, k);
  }

  /**
    Once every declared parameter is bound, a bare token goes to the varargs
    collector, and is refused when the function has no `*args`.
  */
  lemma PositionalOverflows(t: Table, run: Run)
    requires Wf(t, run) && run.rest != [] && !Text.StartsWith(run.rest[0], "-")
    requires forall j :: 0 <= j < |t.names| ==> t.names[j] in run.parsed
    ensures t.varargs.None? ==> Step(t, run) == Stop(Rejected(NoVarargs, run.rest[0]), run)
    ensures t.varargs.Some? ==> Step(t, run) == Next(run.(rest := run.rest[1..], pending := run.pending + [run.rest[0]]))
  {
  }

  /** A bare `-` or `--` is refused. */
  lemma DashOnlyRefused(t: Table, run: Run)
    requires Wf(t, run) && run.rest != [] && (run.rest[0] == "-" || run.rest[0] == "--")
    ensures Step(t, run) == Stop(Rejected(DashOnly, run.rest[0]), run)
  {
    if run.rest[0] == "-" {
      assert Classify("-") == Switch("");
    } else {
      assert Classify("--") == Named("");
    }
  }

  /** A declared name that is already bound is refused, in either form: no parameter is bound twice. */
  lemma BoundTwiceRefused(t: Table, run: Run, n: string)
    requires Wf(t, run) && n in run.parsed && n != "" && !Text.StartsWith(n, "-")
    requires run.rest != [] && (run.rest[0] == "--" + n || run.rest[0] == "-" + n)
    ensures Step(t, run) == Stop(Rejected(AlreadySet, n), run)
  {
    ClassifyLong(n);
    ClassifyShort(n);
  }

  /**
    `-name` on an unbound switch binds the negation of its default and reads
    no further token.
  */
  lemma SwitchFlips(t: Table, run: Run, n: string)
    requires Wf(t, run) && n in t.params && t.params[n].isSwitch && n !in run.parsed
    requires n != "" && !Text.StartsWith(n, "-") && run.rest != [] && run.rest[0] == "-" + n
    ensures Step(t, run).Next?
    ensures Step(t, run).run.rest == run.rest[1..]
    ensures Step(t, run).run.parsed == run.parsed[n := Bool(!Truthy(t.params[n].default))]
  {
    ClassifyShort(n);
  }

  /** `-name` on an unbound parameter that is not a switch is refused. */
  lemma NotASwitchRefused(t: Table, run: Run, n: string)
    requires Wf(t, run) && n in t.params && !t.params[n].isSwitch && n !in run.parsed
    requires n != "" && !Text.StartsWith(n, "-") && run.rest != [] && run.rest[0] == "-" + n
    ensures Step(t, run) == Stop(Rejected(NotASwitch, n), run)
  {
    ClassifyShort(n);
  }

  /**
    `--name` on an unbound declared parameter, switch or not, parses the
    token after it; with no token after it the value is reported missing.
  */
  lemma NamedTakesNext(t: Table, run: Run, n: string)
    requires Wf(t, run) && n in t.params && n !in run.parsed && n != ""
    requires run.rest != [] && run.rest[0] == "--" + n
    ensures |run.rest| == 1 ==> Step(t, run) == Stop(Missing(NamedValue, "--" + n), run)
    ensures |run.rest| >= 2 ==>
      Step(t, run) ==
        match Parsed(t.params[n], run.rest[1])
        case Failure(e) => Stop(e, run)
        case Success(x) => Next(run.(rest := run.rest[2..], leftover := Remove(run.leftover, n), parsed := run.parsed[n := x]))
  {
    ClassifyLong(n);
    assert n in run.leftover;
    if |run.rest| >= 2 {
      assert run.rest[1..][1..] == run.rest[2..];
    }
  }

  /** A name the function does not declare is refused, in either form, when it has no `**kwargs`. */
  lemma UndeclaredWithoutKwargs(t: Table, run: Run, n: string)
    requires Wf(t, run) && t.kwargs.None? && n !in t.params && n != "" && !Text.StartsWith(n, "-")
    requires run.rest != [] && (run.rest[0] == "--" + n || run.rest[0] == "-" + n)
    ensures Step(t, run) == Stop(Rejected(UnsupportedName, n), run)
  {
    ClassifyLong(n);
    ClassifyShort(n);
  }

  /**
    With `**kwargs`, an undeclared `--name` collects the token after it
    under `name`; a name collected before, a switch form, and a missing
    value are refused.
  */
  lemma UndeclaredWithKwargs(t: Table, run: Run, n: string)
    requires Wf(t, run) && t.kwargs.Some? && n !in t.params && n != "" && !Text.StartsWith(n, "-")
    requires run.rest != []
    ensures run.rest[0] == "-" + n ==> Step(t, run) == Stop(Rejected(SwitchAsKwarg, "-" + n), run)
    ensures run.rest == ["--" + n] ==> Step(t, run) == Stop(Missing(KwargValue, "--" + n), run)
    ensures |run.rest| >= 2 && run.rest[0] == "--" + n ==>
      Step(t, run) ==
        if n in run.named then Stop(Rejected(KwargExists, n), run)
        else Next(run.(rest := run.rest[2..], named := run.named[n := run.rest[1]]))
  {
    ClassifyLong(n);
    ClassifyShort(n);
    if |run.rest| >= 2 {
      assert run.rest[1..][1..] == run.rest[2..];
    }
  }

  /** `run` and `next` agree with `Extends` for every run reachable in between. */
  lemma ExtendsTrans(a: Run, b: Run, c: Run)
    requires Extends(a, b) && Extends(b, c)
    ensures Extends(a, c)
  {
  }

  /**
    Draining the tokens only ever adds: a bound parameter keeps its value,
    and the collectors keep what they held, whether the loop ends or stops.
  */
  lemma {:induction false} DrainExtends(t: Table, run: Run)
    requires Wf(t, run)
    ensures Extends(run, After(Drain(t, run)))
    decreases |run.rest|
  {
    if run.rest != [] {
      match Step(t, run)
      case Stop(e, at) =>
      case Next(next) =>
        DrainExtends(t, next);
        ExtendsTrans(run, next, After(Drain(t, next)));
    }
  }

  /** A leftover parameter can be filled: it is optional and its fallback, if any, parses. */
  predicate Fillable(p: Param) {
    !p.required && (p.fallback.Some? ==> Parsed(p, p.fallback.value).Success?)
  }

  /** The value a fillable leftover receives: its parsed fallback, or else its default as it is. */
  function FillValue(p: Param): Value
    requires Fillable(p)
  {
    if p.fallback.Some? then Parsed(p, p.fallback.value).value else p.default
  }

  /**
    Filling the leftovers succeeds exactly when each of them is fillable,
    and then gives each its fill value and keeps every earlier binding.
  */
  lemma {:induction false} ResolveExact(t: Table, leftover: seq<string>, parsed: map<string, Value>)
    requires forall n :: n in leftover ==> n in t.params
    ensures Resolve(t, leftover, parsed).Success? <==> forall n :: n in leftover ==> Fillable(t.params[n])
    ensures Resolve(t, leftover, parsed).Success? ==>
      forall n :: n in leftover ==> Resolve(t, leftover, parsed).value[n] == FillValue(t.params[n])
    decreases |leftover|
  {
    if leftover != [] {
      var n := leftover[0];
      var a := t.params[n];
      assert forall m :: m in leftover <==> m == n || m in leftover[1..];
      if Fillable(a) {
        ResolveExact(t, leftover[1..], parsed[n := FillValue(a)]);
      }
    }
  }

  /** The first leftover that cannot be filled decides the failure: required, or its fallback's parse error. */
  lemma ResolveFirstFailure(t: Table, leftover: seq<string>, parsed: map<string, Value>, k: nat)
    requires forall n :: n in leftover ==> n in t.params
    requires k < |leftover| && !Fillable(t.params[leftover[k]])
    requires forall j :: 0 <= j < k ==> Fillable(t.params[leftover[j]])
    ensures var p := t.params[leftover[k]];
      Resolve(t, leftover, parsed) ==
        if p.required then Failure(Missing(RequiredArgument, leftover[k]))
        else Failure(Parsed(p, p.fallback.value).error)
    decreases k
  {
    if k > 0 {
      var a := t.params[leftover[0]];
      assert Fillable(a);
      ResolveFirstFailure(t, leftover[1..], parsed[leftover[0] := FillValue(a)], k - 1);
    }
  }

  /**
    In a successful result the declared values (`Finish` states where they
    sit) are followed by the parsed varargs and by nothing else: without
    varargs, or with none collected, the list has exactly one value per
    declared parameter.
  */
  lemma FinishShape(t: Table, parsed: map<string, Value>, pending: seq<string>, named: map<string, string>)
    requires forall n :: n in t.names ==> n in parsed
    ensures var r := Finish(t, parsed, pending, named);
      r.Success? ==>
        && (t.varargs.None? || pending == [] ==> |r.value.args| == |t.names|)
        && (t.varargs.Some? && pending != [] ==>
              ListCollected(t.varargs.value, pending).Success?
              && r.value.args[|t.names|..] == ListCollected(t.varargs.value, pending).value)
  {
    var r := Finish(t, parsed, pending, named);
    if r.Success? {
      var positional := Ordered(t.names, parsed);
      var extra := if t.varargs.Some? && |pending| > 0 then ListCollected(t.varargs.value, pending).value else [];
      assert r.value.args == positional + extra;
      assert (positional + extra)[|t.names|..] == extra;
    }
  }

  /**
    Assembly succeeds exactly when the collected varargs and kwargs both
    parse. A varargs failure is reported first, then a kwargs failure. The
    keyword map of a success is the parsed kwargs, or empty when the route
    has none or none were collected.
  */
  lemma FinishAssembles(t: Table, all: map<string, Value>, pending: seq<string>, named: map<string, string>)
    requires forall n :: n in t.names ==> n in all
    requires all.Keys * named.Keys == {}
    ensures var r := Finish(t, all, pending, named);
      var va := if t.varargs.Some? && |pending| > 0 then ListCollected(t.varargs.value, pending) else Success([]);
      var kw := if t.kwargs.Some? && |named| > 0 then DictCollected(t.kwargs.value, named) else Success(map[]);
      && (r.Success? <==> va.Success? && kw.Success?)
      && (r.Success? ==> r.value.kwargs == kw.value)
      && (va.Failure? ==> r == Failure(va.error))
      && (va.Success? && kw.Failure? ==> r == Failure(kw.error))
  {
  }

  /**
    After the token loop, once the leftovers are filled, every declared name
    has a value and no collected kwarg shadows one, so `FinishAssembles`
    describes the call's result.
  */
  lemma FinishOutcome(t: Table, fin: Run, all: map<string, Value>)
    requires Wf(t, fin) && Resolve(t, fin.leftover, fin.parsed) == Success(all)
    ensures forall n :: n in t.names ==> n in all
    ensures all.Keys * fin.named.Keys == {}
  {
    Covered(t, fin);
    KwargShadowNeverFires(t, fin);
  }

  /**
    The check that a kwarg does not shadow a bound parameter never fires:
    the kwargs collector only ever takes undeclared names.
  */
  lemma KwargShadowNeverFires(t: Table, fin: Run)
    requires Wf(t, fin)
    ensures var filled := Resolve(t, fin.leftover, fin.parsed);
      filled.Success? ==> filled.value.Keys * fin.named.Keys == {}
  {
    Covered(t, fin);
  }

  /** A whole call never rebinds, and leaves the collectors holding at least what they held before. */
  lemma CalledKeepsCollected(t: Table, parts: seq<string>, pending: seq<string>, named: map<string, string>)
    requires Coherent(t) && named.Keys !! t.params.Keys
    ensures var o := Called(t, parts, pending, named);
      pending <= o.pending && named.Keys <= o.named.Keys
      && forall n :: n in named ==> o.named[n] == named[n]
  {
    DrainExtends(t, Start(t, parts, pending, named));
  }
}
