/**
  A route: the parameter table built from a function signature
  (argz.py `Route.__init__`) and the binder that matches a token list
  against it (`Route.__call__`).

  The binder is specified step by step: `Step` consumes one token of a
  `Run`, `Drain` repeats it until the tokens run out or a step fails,
  `Resolve` fills the parameters no token bound, and `Finish` assembles the
  positional list and the keyword map.  `Called` chains the four, and the
  method `Route.Call` is proved to compute it.
*/
module Binding {
  import opened Wrappers
  import opened Values
  import opened Errors
  import opened Pipeline
  import opened Args
  import Text

  predicate Distinct(s: seq<string>) {
    forall i, j :: 0 <= i < j < |s| ==> s[i] != s[j]
  }

  /** The names of `names` that are not in `bound`, in their order. */
  function Unbound(names: seq<string>, bound: set<string>): (r: seq<string>)
    ensures forall x :: x in r <==> x in names && x !in bound
    ensures |r| <= |names|
  {
    if names == [] then []
    else (if names[0] in bound then [] else [names[0]]) + Unbound(names[1..], bound)
  }

  /** `list.remove(x)`: drops the first occurrence of `x`. */
  function Remove(s: seq<string>, x: string): (r: seq<string>)
    requires x in s
    ensures |r| == |s| - 1
  {
    if s[0] == x then s[1..] else [s[0]] + Remove(s[1..], x)
  }

  lemma UnboundNone(names: seq<string>)
    ensures Unbound(names, {}) == names
  {
  }

  lemma {:induction false} UnboundIgnores(names: seq<string>, bound: set<string>, x: string)
    requires x !in names
    ensures Unbound(names, bound + {x}) == Unbound(names, bound)
  {
    if names != [] {
      UnboundIgnores(names[1..], bound, x);
    }
  }

  lemma DistinctTail(names: seq<string>)
    requires Distinct(names) && names != []
    ensures Distinct(names[1..]) && names[0] !in names[1..]
  {
    assert forall j :: 0 <= j < |names[1..]| ==> names[1..][j] == names[j + 1];
  }

  /** Binding one more name removes exactly that name from the unbound ones. */
  lemma {:induction false} UnboundRemove(names: seq<string>, bound: set<string>, x: string)
    requires Distinct(names) && x in names && x !in bound
    ensures Unbound(names, bound + {x}) == Remove(Unbound(names, bound), x)
  {
    DistinctTail(names);
    var u := Unbound(names[1..], bound);
    if names[0] == x {
      UnboundIgnores(names[1..], bound, x);
      assert Unbound(names, bound) == [x] + u;
      assert Remove([x] + u, x) == u;
    } else {
      assert x in names[1..] by {
        var i :| 0 <= i < |names| && names[i] == x;
        assert names[1..][i - 1] == x;
      }
      UnboundRemove(names[1..], bound, x);
      var v := Unbound(names[1..], bound + {x});
      if names[0] in bound {
        assert Unbound(names, bound) == u;
        assert Unbound(names, bound + {x}) == v;
      } else {
        assert Unbound(names, bound) == [names[0]] + u;
        assert Unbound(names, bound + {x}) == [names[0]] + v;
        assert ([names[0]] + u)[1..] == u;
        assert Remove([names[0]] + u, x) == [names[0]] + Remove(u, x);
      }
    }
  }

  /** The first unbound name is the earliest one in declaration order. */
  lemma {:induction false} UnboundFirst(names: seq<string>, bound: set<string>, k: nat)
    requires k < |names| && names[k] !in bound
    requires forall j :: 0 <= j < k ==> names[j] in bound
    ensures Unbound(names, bound) != [] && Unbound(names, bound)[0] == names[k]
  {
    if k > 0 {
      UnboundFirst(names[1..], bound, k - 1);
    }
  }

  /** What a token looks like: `--name`, `-name`, or anything else. */
  datatype Token = Positional(text: string) | Named(name: string) | Switch(name: string)

  function Classify(p: string): (t: Token)
    ensures t.Positional? <==> !Text.StartsWith(p, "-")
    ensures t.Positional? ==> t.text == p
    ensures t.Named? <==> Text.StartsWith(p, "--")
    ensures t.Named? ==> "--" + t.name == p
    ensures t.Switch? ==> "-" + t.name == p
  {
    if Text.StartsWith(p, "--") then Named(p[2..])
    else if Text.StartsWith(p, "-") then Switch(p[1..])
    else Positional(p)
  }

  /**
    The binder between two tokens: the tokens still to read, the declared
    names no token has bound yet, the values bound so far, and the contents
    of the varargs and kwargs collectors.
  */
  datatype Run = Run(
    rest: seq<string>,
    leftover: seq<string>,
    parsed: map<string, Value>,
    pending: seq<string>,
    named: map<string, string>)

  /** The outcome of consuming tokens: the next run, or the failure raised and the run it was raised in. */
  datatype Move = Next(run: Run) | Stop(failure: Failure, at: Run)

  /** What a call returns: the positional list and the keyword map passed to the function. */
  datatype Bound = Bound(args: seq<Value>, kwargs: map<string, Value>)

  /** What a call returns or raises, and the collector contents it leaves behind. */
  datatype Outcome = Outcome(result: Result<Bound, Failure>, pending: seq<string>, named: map<string, string>)

  /**
    The settings of a route's arguments as the binder reads them: the
    declared names in order, one `Param` per name, and the settings of the
    varargs and kwargs collectors when the function has them.
  */
  datatype Table = Table(
    names: seq<string>,
    params: map<string, Param>,
    varargs: Option<Param>,
    kwargs: Option<Param>)

  /** One argument per distinct declared name, in declaration order. */
  predicate Coherent(t: Table) {
    Distinct(t.names)
    && (forall n :: n in t.params ==> n in t.names)
    && (forall i :: 0 <= i < |t.names| ==> t.names[i] in t.params)
    && (forall n :: n in t.params ==> t.params[n].name == n)
  }

  /** A run of table `t`: `leftover` lists exactly the declared names not yet bound, and kwargs hold no declared name. */
  predicate Wf(t: Table, run: Run) {
    Coherent(t)
    && run.parsed.Keys <= t.params.Keys
    && run.leftover == Unbound(t.names, run.parsed.Keys)
    && run.named.Keys !! t.params.Keys
  }

  /** `next` keeps every binding of `run` and everything the collectors held. */
  ghost predicate Extends(run: Run, next: Run) {
    run.parsed.Keys <= next.parsed.Keys
    && (forall n :: n in run.parsed ==> next.parsed[n] == run.parsed[n])
    && run.pending <= next.pending
    && run.named.Keys <= next.named.Keys
    && (forall n :: n in run.named ==> next.named[n] == run.named[n])
  }

  /** A step reads at least one token and never unbinds or rebinds a name or drops collected input. */
  ghost predicate Grows(run: Run, next: Run) {
    |next.rest| < |run.rest| && Extends(run, next)
  }

  /** The run a move leaves the binder in, whether it went on or stopped. */
  function After(m: Move): Run {
    if m.Next? then m.run else m.at
  }

  /** The run after the unbound name `n` is bound to `x`, with `rest` still to read. */
  function Bind(t: Table, run: Run, n: string, x: Value, rest: seq<string>): (next: Run)
    requires Wf(t, run) && n in run.leftover && |rest| < |run.rest|
    ensures Wf(t, next) && Grows(run, next)
    ensures next.parsed.Keys == run.parsed.Keys + {n}
    ensures next.pending == run.pending && next.named == run.named
  {
    UnboundRemove(t.names, run.parsed.Keys, n);
    assert run.parsed[n := x].Keys == run.parsed.Keys + {n};
    run.(rest := rest, leftover := Remove(run.leftover, n), parsed := run.parsed[n := x])
  }

  /** A bare token: it binds the first unbound parameter, or overflows to varargs. */
  function PositionalStep(t: Table, run: Run, v: string): (m: Move)
    requires Wf(t, run) && run.rest != []
    ensures m.Stop? ==> m.at == run
    ensures m.Next? ==> Wf(t, m.run) && Grows(run, m.run)
    ensures After(m).named == run.named
  {
    var rest := run.rest[1..];
    if run.leftover == [] then
      if t.varargs.None? then Stop(Rejected(NoVarargs, v), run)
      else Next(run.(rest := rest, pending := run.pending + [v]))
    else
      var n := run.leftover[0];
      match Parsed(t.params[n], v)
      case Failure(e) => Stop(e, run)
      case Success(x) => Next(Bind(t, run, n, x, rest))
  }

  /** A name the route does not declare: it goes to kwargs with the token after it. */
  function UndeclaredStep(t: Table, run: Run, p: string, n: string, switch: bool): (m: Move)
    requires Wf(t, run) && run.rest != [] && n !in t.params
    ensures m.Stop? ==> m.at == run
    ensures m.Next? ==> Wf(t, m.run) && Grows(run, m.run)
    ensures After(m).pending == run.pending
  {
    var rest := run.rest[1..];
    if t.kwargs.None? then Stop(Rejected(UnsupportedName, n), run)
    else if switch then Stop(Rejected(SwitchAsKwarg, p), run)
    else if rest == [] then Stop(Missing(KwargValue, p), run)
    else if n in run.named then Stop(Rejected(KwargExists, n), run)
    else Next(run.(rest := rest[1..], named := run.named[n := rest[0]]))
  }

  /** A declared name: bound once, by a switch flip or by parsing the token after it. */
  function DeclaredStep(t: Table, run: Run, p: string, n: string, switch: bool): (m: Move)
    requires Wf(t, run) && run.rest != [] && n in t.params
    ensures m.Stop? ==> m.at == run
    ensures m.Next? ==> Wf(t, m.run) && Grows(run, m.run)
    ensures After(m).pending == run.pending && After(m).named == run.named
  {
    var rest := run.rest[1..];
    var a := t.params[n];
    if n !in run.leftover then Stop(Rejected(AlreadySet, n), run)
    else if switch && !a.isSwitch then Stop(Rejected(NotASwitch, n), run)
    else if switch then Next(Bind(t, run, n, Bool(!Truthy(a.default)), rest))
    else if rest == [] then Stop(Missing(NamedValue, p), run)
    else
      match Parsed(a, rest[0])
      case Failure(e) => Stop(e, run)
      case Success(x) => Next(Bind(t, run, n, x, rest[1..]))
  }

  /** One pass of the `while parts` loop. */
  function Step(t: Table, run: Run): (m: Move)
    requires Wf(t, run) && run.rest != []
    ensures m.Stop? ==> m.at == run
    ensures m.Next? ==> Wf(t, m.run) && Grows(run, m.run)
  {
    var p := run.rest[0];
    match Classify(p)
    case Positional(v) => PositionalStep(t, run, v)
    case Named(n) =>
      if n == "" then Stop(Rejected(DashOnly, p), run)
      else if n in t.params then DeclaredStep(t, run, p, n, false)
      else UndeclaredStep(t, run, p, n, false)
    case Switch(n) =>
      if n == "" then Stop(Rejected(DashOnly, p), run)
      else if n in t.params then DeclaredStep(t, run, p, n, true)
      else UndeclaredStep(t, run, p, n, true)
  }

  /** The whole `while parts` loop: steps until no token is left or one fails. */
  function Drain(t: Table, run: Run): (m: Move)
    requires Wf(t, run)
    ensures m.Next? ==> Wf(t, m.run) && m.run.rest == []
    decreases |run.rest|
  {
    if run.rest == [] then Next(run)
    else
      match Step(t, run)
      case Stop(e, at) => Stop(e, at)
      case Next(next) => Drain(t, next)
  }

  /** Every declared name is either bound or still unbound. */
  lemma Covered(t: Table, run: Run)
    requires Wf(t, run)
    ensures forall n :: n in t.params <==> n in run.parsed || n in run.leftover
  {
  }

  /** The leftover loop: required raises, else the fallback is parsed, else the default is taken as is. */
  function Resolve(t: Table, leftover: seq<string>, parsed: map<string, Value>): (r: Result<map<string, Value>, Failure>)
    requires forall n :: n in leftover ==> n in t.params
    ensures r.Success? ==> forall n :: n in r.value <==> n in parsed || n in leftover
    ensures r.Success? ==> forall n :: n in parsed && n !in leftover ==> r.value[n] == parsed[n]
    decreases |leftover|
  {
    if leftover == [] then Success(parsed)
    else
      var a := t.params[leftover[0]];
      if a.required then Failure(Missing(RequiredArgument, leftover[0]))
      else
        var v :- if a.fallback.Some? then Parsed(a, a.fallback.value) else Success(a.default);
        Resolve(t, leftover[1..], parsed[leftover[0] := v])
  }

  /** The values of the declared parameters, in declaration order. */
  function Ordered(names: seq<string>, parsed: map<string, Value>): (r: seq<Value>)
    requires forall n :: n in names ==> n in parsed
    ensures |r| == |names|
    ensures forall i :: 0 <= i < |names| ==> r[i] == parsed[names[i]]
  {
    seq(|names|, i requires 0 <= i < |names| => parsed[names[i]])
  }

  /** `out_args`: each parsed value keyed by the position `names.index` gives its name. */
  function Indexed(names: seq<string>, parsed: map<string, Value>): map<nat, Value>
    requires forall n :: n in parsed ==> n in names
  {
    map n | n in parsed :: IndexOf(names, n) := parsed[n]
  }

  /** Assembling the result: declared values, then parsed varargs, then the parsed kwargs map. */
  function Finish(t: Table, parsed: map<string, Value>, pending: seq<string>, named: map<string, string>): (r: Result<Bound, Failure>)
    requires forall n :: n in t.names ==> n in parsed
    ensures r.Success? ==> |r.value.args| >= |t.names| && r.value.args[..|t.names|] == Ordered(t.names, parsed)
    ensures r.Success? && (t.kwargs.None? || named == map[]) ==> r.value.kwargs == map[]
  {
    var positional := Ordered(t.names, parsed);
    var extra :- if t.varargs.Some? && |pending| > 0 then ListCollected(t.varargs.value, pending) else Success([]);
    if t.kwargs.Some? && |named| > 0 then
      if parsed.Keys * named.Keys != {} then Failure(General(KwargShadow, ""))
      else
        var kw :- DictCollected(t.kwargs.value, named);
        Success(Bound(positional + extra, kw))
    else Success(Bound(positional + extra, map[]))
  }

  /** After the tokens run out: the leftovers are resolved, then the result assembled. */
  function Settled(t: Table, fin: Run): (r: Result<Bound, Failure>)
    requires Wf(t, fin)
    ensures Resolve(t, fin.leftover, fin.parsed).Failure? ==> r == Failure(Resolve(t, fin.leftover, fin.parsed).error)
    ensures r.Success? ==> |r.value.args| >= |t.names|
  {
    match Resolve(t, fin.leftover, fin.parsed)
    case Failure(e) => Failure(e)
    case Success(all) => Finish(t, all, fin.pending, fin.named)
  }

  /** The run a call starts from. */
  function Start(t: Table, parts: seq<string>, pending: seq<string>, named: map<string, string>): (run: Run)
    requires Coherent(t) && named.Keys !! t.params.Keys
    ensures Wf(t, run)
  {
    UnboundNone(t.names);
    var none: map<string, Value> := map[];
    assert none.Keys == {};
    Run(parts, t.names, none, pending, named)
  }

  /** `Route.__call__(parts)` with the collectors holding `pending` and `named` beforehand. */
  function Called(t: Table, parts: seq<string>, pending: seq<string>, named: map<string, string>): (o: Outcome)
    requires Coherent(t) && named.Keys !! t.params.Keys
    ensures o.result.Success? ==> |o.result.value.args| >= |t.names|
    ensures parts == [] ==> o.pending == pending && o.named == named
  {
    match Drain(t, Start(t, parts, pending, named))
    case Stop(e, at) => Outcome(Failure(e), at.pending, at.named)
    case Next(fin) => Outcome(Settled(t, fin), fin.pending, fin.named)
  }

  /**
    A function signature as `inspect.getargspec` reports it: the parameter
    names in order, the defaults of the last `|defaults|` of them, and the
    names of the `*args` and `**kwargs` parameters when present.
  */
  datatype Signature = Signature(
    params: seq<string>,
    defaults: seq<Value>,
    varargs: Option<string>,
    kwargs: Option<string>)

  /** What Python guarantees of a signature: distinct names, no more defaults than parameters. */
  predicate Proper(sig: Signature) {
    Distinct(sig.params) && |sig.defaults| <= |sig.params|
  }

  /** `s.index(x)`: the first position of `x` in `s`. */
  function IndexOf(s: seq<string>, x: string): (i: nat)
    requires x in s
    ensures i < |s| && s[i] == x
    ensures x !in s[..i]
  {
    if s[0] == x then 0 else 1 + IndexOf(s[1..], x)
  }

  /** The default of the `i`-th parameter, if it has one. */
  function DefaultOf(sig: Signature, i: nat): (d: Option<Value>)
    requires Proper(sig) && i < |sig.params|
  {
    var start := |sig.params| - |sig.defaults|;
    if i >= start then Some(sig.defaults[i - start]) else None
  }

  /** The settings `Route.__init__` gives the `i`-th parameter. */
  function DeclaredParam(sig: Signature, i: nat): (p: Param)
    requires Proper(sig) && i < |sig.params|
    ensures p.name == sig.params[i]
    ensures p.required <==> i < |sig.params| - |sig.defaults|
    ensures !p.required ==> p.default == sig.defaults[i - (|sig.params| - |sig.defaults|)]
    ensures p.isSwitch <==> !p.required && p.default.Bool?
    ensures p.fallback.None? && p.rules.validator.NoValidator? && p.rules.split.None?
    ensures p.rules.min.None? && p.rules.max.None?
    ensures p.rules.adapter == (if !p.required && KindOf(p.default).Some? then Single(Builtin(KindOf(p.default).value)) else NoAdapter)
  {
    var n := sig.params[i];
    match DefaultOf(sig, i)
    case None => Initial(n, false)
    case Some(d) =>
      var k := KindOf(d);
      var adapter := if k.Some? then Single(Builtin(k.value)) else NoAdapter;
      Param(n, k == Some(BoolType), false, None, d, Rules(NoValidator, adapter, None, None, None))
  }

  /** The table of a freshly constructed route. */
  function Declared(sig: Signature): (t: Table)
    requires Proper(sig)
    ensures Coherent(t)
    ensures t.names == sig.params && t.params.Keys == set n | n in sig.params
    ensures t.varargs.Some? <==> sig.varargs.Some?
    ensures sig.varargs.Some? ==> t.varargs.value == Initial(sig.varargs.value, false)
    ensures t.kwargs.Some? <==> sig.kwargs.Some?
    ensures sig.kwargs.Some? ==> t.kwargs.value == Initial(sig.kwargs.value, false)
  {
    Table(
      sig.params,
      map n | n in sig.params :: DeclaredParam(sig, IndexOf(sig.params, n)),
      if sig.varargs.Some? then Some(Initial(sig.varargs.value, false)) else None,
      if sig.kwargs.Some? then Some(Initial(sig.kwargs.value, false)) else None)
  }

  /** The private attributes a `Route` holds before it checks its parameter names. */
  const ReservedNames: set<string> :=
    {"_Route__fref", "_Route__doc", "_Route__filename", "_Route__kwargs", "_Route__varargs", "_Route__args"}

  /** The parameter names that collide with a reserved attribute, in order. */
  function Shadowed(params: seq<string>): (r: seq<string>)
    ensures forall x :: x in r <==> x in params && x in ReservedNames
  {
    if params == [] then []
    else (if params[0] in ReservedNames then [params[0]] else []) + Shadowed(params[1..])
  }

  /** The argument object `Route.__init__` makes for the `i`-th parameter. */
  method Declare(sig: Signature, i: nat) returns (a: Arg)
    requires Proper(sig) && i < |sig.params|
    ensures fresh(a) && a.Snapshot() == DeclaredParam(sig, i)
  {
    var n := sig.params[i];
    a := new Arg(n, false);
    var d := DefaultOf(sig, i);
    if d.Some? {
      a.SetDefault(d.value);
      var k := KindOf(d.value);
      if k.Some? {
        a.adapter := Single(Builtin(k.value));
        if k.value == BoolType {
          // a boolean default makes the parameter a switch
          var sw := new Arg(n, true);
          sw.SetDefault(a.default);
          sw.adapter := a.adapter;
          a := sw;
        }
      }
    }
  }

  /** Every argument in `m` carries the settings the table gives its parameter. */
  ghost predicate DeclaresAll(sig: Signature, m: map<string, Arg>)
    requires Proper(sig)
    reads m.Values
  {
    forall n :: n in m ==> n in sig.params && m[n].Snapshot() == DeclaredParam(sig, IndexOf(sig.params, n))
  }

  /** The loop of `Route.__init__`: one fresh argument object per parameter. */
  method DeclareAll(sig: Signature) returns (m: map<string, Arg>)
    requires Proper(sig)
    ensures m.Keys == set n | n in sig.params
    ensures forall n :: n in m ==> fresh(m[n])
    ensures DeclaresAll(sig, m)
  {
    m := map[];
    var i := 0;
    while i < |sig.params|
      invariant 0 <= i <= |sig.params|
      invariant m.Keys == set n | n in sig.params[..i]
      invariant forall n :: n in m ==> fresh(m[n]) && m[n].Snapshot() == DeclaredParam(sig, IndexOf(sig.params, n))
    {
      var a := Declare(sig, i);
      assert IndexOf(sig.params, sig.params[i]) == i;
      m := m[sig.params[i] := a];
      i := i + 1;
    }
    assert sig.params[..i] == sig.params;
  }

  /** A map that gives every parameter its declared settings is the table's. */
  lemma DeclaredParams(sig: Signature, params: map<string, Param>)
    requires Proper(sig) && params.Keys == set n | n in sig.params
    requires forall n :: n in params ==> params[n] == DeclaredParam(sig, IndexOf(sig.params, n))
    ensures params == Declared(sig).params
  {
  }

  /** The `**kwargs` collector `Route.__init__` makes, when the signature names one. */
  method NewKwargs(collector: Option<string>) returns (kw: Kwargs?)
    ensures kw != null <==> collector.Some?
    ensures kw != null ==> fresh(kw) && fresh(kw.arg)
    ensures kw != null ==> kw.arg.Snapshot() == Initial(collector.value, false) && kw.items == map[]
  {
    kw := null;
    if collector.Some? {
      kw := new Kwargs(collector.value);
    }
  }

  /** The `*args` collector `Route.__init__` makes, when the signature names one. */
  method NewVarargs(collector: Option<string>) returns (va: Varargs?)
    ensures va != null <==> collector.Some?
    ensures va != null ==> fresh(va) && fresh(va.arg)
    ensures va != null ==> va.arg.Snapshot() == Initial(collector.value, false) && va.items == []
  {
    va := null;
    if collector.Some? {
      va := new Varargs(collector.value);
    }
  }

  class Route {
    const names: seq<string>
    const argMap: map<string, Arg>
    const varargs: Varargs?
    const kwargs: Kwargs?

    /**
      `Route.__init__` without its name check: the kwargs and varargs
      collectors when the signature has them, then one argument per
      parameter, in order.
    */
    constructor (sig: Signature)
      requires Proper(sig)
      ensures Built(sig) && fresh(Collectors())
    {
      var kw := NewKwargs(sig.kwargs);
      var va := NewVarargs(sig.varargs);
      var m := DeclareAll(sig);
      names := sig.params;
      argMap := m;
      varargs := va;
      kwargs := kw;
    }

    /**
      The route holds what the constructor makes for `sig`: the names in
      order, one argument per name with its declared settings, and empty
      collectors with their initial settings where `sig` has them.
    */
    ghost predicate Built(sig: Signature)
      requires Proper(sig)
      reads Frame(), varargs, kwargs
    {
      && names == sig.params && argMap.Keys == (set n | n in sig.params)
      && DeclaresAll(sig, argMap)
      && (varargs != null <==> sig.varargs.Some?)
      && (varargs != null ==> varargs.arg.Snapshot() == Initial(sig.varargs.value, false) && varargs.items == [])
      && (kwargs != null <==> sig.kwargs.Some?)
      && (kwargs != null ==> kwargs.arg.Snapshot() == Initial(sig.kwargs.value, false) && kwargs.items == map[])
    }

    /** A route as the constructor leaves it is valid, empty, and its table is the declared one. */
    lemma BuiltDeclares(sig: Signature)
      requires Proper(sig) && Built(sig)
      ensures Valid() && Current() == Declared(sig) && Pending() == [] && Named() == map[]
    {
      DeclaredParams(sig, Current().params);
    }

    /** The collectors a call adds to. */
    function Collectors(): set<object> {
      (if varargs != null then {varargs as object} else {})
      + (if kwargs != null then {kwargs as object} else {})
    }

    /** The argument objects whose settings the binder reads. */
    function Frame(): set<Arg> {
      argMap.Values
      + (if varargs != null then {varargs.arg} else {})
      + (if kwargs != null then {kwargs.arg} else {})
    }

    /** The names are distinct, each names one argument, and each argument carries its own name. */
    predicate Wellformed() {
      Distinct(names)
      && (forall n :: n in argMap ==> n in names)
      && (forall i :: 0 <= i < |names| ==> names[i] in argMap)
      && (forall n :: n in argMap ==> argMap[n].name == n)
    }

    /** The current settings of every argument of the route. */
    function Current(): (t: Table)
      reads Frame()
      ensures t.names == names && t.params.Keys == argMap.Keys
      ensures forall n :: n in argMap ==> t.params[n] == argMap[n].Snapshot()
      ensures t.varargs.Some? <==> varargs != null
      ensures varargs != null ==> t.varargs.value == varargs.arg.Snapshot()
      ensures t.kwargs.Some? <==> kwargs != null
      ensures kwargs != null ==> t.kwargs.value == kwargs.arg.Snapshot()
      ensures Wellformed() ==> Coherent(t)
    {
      Table(
        names,
        map n | n in argMap :: argMap[n].Snapshot(),
        if varargs != null then Some(varargs.arg.Snapshot()) else None,
        if kwargs != null then Some(kwargs.arg.Snapshot()) else None)
    }

    /** The kwargs collector never holds a declared name. */
    predicate Valid()
      reads kwargs
    {
      Wellformed() && (kwargs != null ==> kwargs.items.Keys !! argMap.Keys)
    }

    function Pending(): seq<string>
      reads varargs
    {
      if varargs == null then [] else varargs.items
    }

    function Named(): map<string, string>
      reads kwargs
    {
      if kwargs == null then map[] else kwargs.items
    }

    /** `t` is a snapshot of this route: same names, same arguments, same collectors. */
    predicate Shapes(t: Table) {
      t.names == names && t.params.Keys == argMap.Keys
      && (t.varargs.Some? <==> varargs != null)
      && (t.kwargs.Some? <==> kwargs != null)
    }

    /** A bare token, on the varargs collector itself. */
    method TakePositional(t: Table, run: Run, v: string) returns (m: Move)
      requires Shapes(t) && Wf(t, run) && run.rest != [] && run.pending == Pending()
      modifies varargs
      ensures m == PositionalStep(t, run, v)
      ensures Pending() == After(m).pending
    {
      if run.leftover == [] {
        if varargs == null {
          return Stop(Rejected(NoVarargs, v), run);
        }
        varargs.Add(v);
        return Next(run.(rest := run.rest[1..], pending := varargs.items));
      }
      var n := run.leftover[0];
      var x := ParseWith(t.params[n], v);
      if x.Failure? {
        return Stop(x.error, run);
      }
      return Next(Bind(t, run, n, x.value, run.rest[1..]));
    }

    /** An undeclared name, on the kwargs collector itself. */
    method TakeUndeclared(t: Table, run: Run, p: string, n: string, switch: bool) returns (m: Move)
      requires Shapes(t) && Wf(t, run) && run.rest != [] && n !in t.params && run.named == Named()
      modifies kwargs
      ensures m == UndeclaredStep(t, run, p, n, switch)
      ensures Named() == After(m).named
    {
      var rest := run.rest[1..];
      if kwargs == null {
        return Stop(Rejected(UnsupportedName, n), run);
      }
      if switch {
        return Stop(Rejected(SwitchAsKwarg, p), run);
      }
      if rest == [] {
        return Stop(Missing(KwargValue, p), run);
      }
      var added := kwargs.Add(rest[0], n);
      if added.Failure? {
        return Stop(added.error, run);
      }
      return Next(run.(rest := rest[1..], named := kwargs.items));
    }

    /** A declared name. */
    method TakeDeclared(t: Table, run: Run, p: string, n: string, switch: bool) returns (m: Move)
      requires Wf(t, run) && run.rest != [] && n in t.params
      ensures m == DeclaredStep(t, run, p, n, switch)
    {
      var rest := run.rest[1..];
      if n !in run.leftover {
        return Stop(Rejected(AlreadySet, n), run);
      }
      var a := t.params[n];
      if switch && !a.isSwitch {
        return Stop(Rejected(NotASwitch, n), run);
      }
      if switch {
        return Next(Bind(t, run, n, Bool(!Truthy(a.default)), rest));
      }
      if rest == [] {
        return Stop(Missing(NamedValue, p), run);
      }
      var x := ParseWith(a, rest[0]);
      if x.Failure? {
        return Stop(x.error, run);
      }
      return Next(Bind(t, run, n, x.value, rest[1..]));
    }

    /** One pass of the `while parts` loop body. */
    method Take(t: Table, run: Run) returns (m: Move)
      requires Shapes(t) && Wf(t, run) && run.rest != []
      requires run.pending == Pending() && run.named == Named()
      modifies varargs, kwargs
      ensures m == Step(t, run)
      ensures Pending() == After(m).pending && Named() == After(m).named
    {
      var p := run.rest[0];
      var token := Classify(p);
      if token.Positional? {
        m := TakePositional(t, run, token.text);
      } else if token.name == "" {
        m := Stop(Rejected(DashOnly, p), run);
      } else if token.name in t.params {
        m := TakeDeclared(t, run, p, token.name, token.Switch?);
      } else {
        m := TakeUndeclared(t, run, p, token.name, token.Switch?);
      }
    }

    /** The leftover loop. */
    method Fill(t: Table, leftover: seq<string>, parsed: map<string, Value>) returns (r: Result<map<string, Value>, Failure>)
      requires forall n :: n in leftover ==> n in t.params
      ensures r == Resolve(t, leftover, parsed)
    {
      var todo := leftover;
      var all := parsed;
      while todo != []
        invariant forall n :: n in todo ==> n in t.params
        invariant Resolve(t, todo, all) == Resolve(t, leftover, parsed)
        decreases |todo|
      {
        var n := todo[0];
        var a := t.params[n];
        if a.required {
          return Failure(Missing(RequiredArgument, n));
        }
        if a.fallback.Some? {
          var x := ParseWith(a, a.fallback.value);
          if x.Failure? {
            return Failure(x.error);
          }
          all := all[n := x.value];
        } else {
          all := all[n := a.default];
        }
        todo := todo[1..];
      }
      return Success(all);
    }

    /** Building `arglist` and `argkw` once every declared name has a value. */
    method Assemble(t: Table, parsed: map<string, Value>) returns (r: Result<Bound, Failure>)
      requires Valid() && Shapes(t) && parsed.Keys == argMap.Keys
      ensures r == Finish(t, parsed, Pending(), Named())
    {
      var arglist: seq<Value> := [];
      var i := 0;
      while i < |names|
        invariant 0 <= i <= |names|
        invariant arglist == Ordered(names, parsed)[..i]
      {
        arglist := arglist + [parsed[names[i]]];
        i := i + 1;
      }
      assert arglist == Ordered(t.names, parsed);
      ghost var tail: seq<Value> := [];
      if varargs != null && |varargs.items| > 0 {
        var extra := CollectList(t.varargs.value, varargs.items);
        if extra.Failure? {
          return Failure(extra.error);
        }
        arglist := arglist + extra.value;
        tail := extra.value;
      }
      assert arglist == Ordered(t.names, parsed) + tail;
      var argkw: map<string, Value> := map[];
      if kwargs != null && |kwargs.items| > 0 {
        if parsed.Keys * kwargs.items.Keys != {} {
          // kwargs only ever collect undeclared names
          assert false;
        }
        var kw := CollectDict(t.kwargs.value, kwargs.items);
        if kw.Failure? {
          return Failure(kw.error);
        }
        argkw := kw.value;
      }
      return Success(Bound(arglist, argkw));
    }

    /** The code after the `while parts` loop. */
    method Settle(t: Table, fin: Run) returns (r: Result<Bound, Failure>)
      requires Valid() && Shapes(t) && Wf(t, fin)
      requires fin.pending == Pending() && fin.named == Named()
      ensures r == Settled(t, fin)
    {
      var all := Fill(t, fin.leftover, fin.parsed);
      if all.Failure? {
        return Failure(all.error);
      }
      Covered(t, fin);
      assert all.value.Keys == argMap.Keys;
      r := Assemble(t, all.value);
    }

    /**
      `__call__(parts)`: binds the tokens, fills the leftovers, and assembles
      the positional list and keyword map.  The settings of the arguments
      are read as they stand when the call starts; the collectors keep what
      this call added to them.
    */
    method Call(parts: seq<string>) returns (r: Result<Bound, Failure>)
      requires Valid()
      modifies varargs, kwargs
      ensures Valid()
      ensures var o := Called(old(Current()), parts, old(Pending()), old(Named()));
        r == o.result && Pending() == o.pending && Named() == o.named
    {
      var t := Current();
      var run := Start(t, parts, Pending(), Named());
      ghost var start := run;
      while run.rest != []
        invariant Valid() && Wf(t, run)
        invariant run.pending == Pending() && run.named == Named()
        invariant Drain(t, run) == Drain(t, start)
        decreases |run.rest|
      {
        var m := Take(t, run);
        if m.Stop? {
          return Failure(m.failure);
        }
        run := m.run;
      }
      r := Settle(t, run);
    }
  }

  /**
    `Route(fref)`: the route of a function with signature `sig`, or the
    exception raised when a parameter name would shadow one of the route's
    own attributes.
  */
  method Build(sig: Signature) returns (r: Result<Route, Failure>)
    requires Proper(sig)
    ensures r.Failure? <==> Shadowed(sig.params) != []
    ensures r.Failure? ==> r.error == Uncaught(ShadowsRouteMembers, Shadowed(sig.params)[0])
    ensures r.Success? ==> fresh(r.value) && r.value.Valid() && r.value.Current() == Declared(sig)
    ensures r.Success? ==> r.value.Pending() == [] && r.value.Named() == map[] && fresh(r.value.Collectors())
  {
    var bad := Shadowed(sig.params);
    if bad != [] {
      return Failure(Uncaught(ShadowsRouteMembers, bad[0]));
    }
    var route := new Route(sig);
    route.BuiltDeclares(sig);
    return Success(route);
  }
}
