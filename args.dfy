/**
  The argument objects (argz.py `Arg`, `Switcharg`, `Varargs`, `Kwargs`).
  An `Arg` carries the attributes the owner of a route sets before parsing;
  a switch is an `Arg` whose `isSwitch` is fixed at creation.  The varargs and
  kwargs collectors wrap the `Arg` that holds their own validator and
  adapters, and keep what they collect between parse calls.
*/
module Args {
  import opened Wrappers
  import opened Values
  import opened Errors
  import opened Pipeline
  import Text

  /** The settings of an argument at the moment the binder reads them. */
  datatype Param = Param(
    name: string,
    isSwitch: bool,
    required: bool,
    fallback: Option<string>,
    default: Value,
    rules: Rules)

  /** What `parse(argv)` returns or raises for an argument with settings `p`. */
  function Parsed(p: Param, argv: string): Result<Value, Failure> {
    ParseValue(p.name, p.rules, argv)
  }

  /** The settings of a freshly created argument: required, no fallback, default None, no checks. */
  function Initial(name: string, isSwitch: bool): Param {
    Param(name, isSwitch, true, None, NoneValue, Rules(NoValidator, NoAdapter, None, None, None))
  }

  class Arg {
    const name: string
    const isSwitch: bool
    var required: bool
    var fallback: Option<string>
    var default: Value
    var validator: Validator
    var adapter: AdapterSpec
    var split: Option<string>
    var min: Option<int>
    var max: Option<int>

    /** A fresh argument: required, with no fallback, default or checks. */
    constructor (name: string, isSwitch: bool)
      ensures this.name == name && this.isSwitch == isSwitch
      ensures required && fallback == None && default == NoneValue
      ensures validator == NoValidator && adapter == NoAdapter
      ensures split == None && min == None && max == None
      ensures Snapshot() == Initial(name, isSwitch)
    {
      this.name := name;
      this.isSwitch := isSwitch;
      required := true;
      fallback := None;
      default := NoneValue;
      validator := NoValidator;
      adapter := NoAdapter;
      split := None;
      min := None;
      max := None;
    }

    /** The attributes that drive the value pipeline. */
    function Settings(): Pipeline.Rules
      reads this
    {
      Pipeline.Rules(validator, adapter, split, min, max)
    }

    /** The `fallback` setter: stores the string and makes the argument optional. */
    method SetFallback(v: string)
      modifies this
      ensures fallback == Some(v) && !required
      ensures default == old(default) && Settings() == old(Settings())
      ensures Snapshot() == old(Snapshot()).(fallback := Some(v), required := false)
    {
      fallback := Some(v);
      required := false;
    }

    /** The `default` setter: stores the value and makes the argument optional. */
    method SetDefault(v: Value)
      modifies this
      ensures default == v && !required
      ensures fallback == old(fallback) && Settings() == old(Settings())
      ensures Snapshot() == old(Snapshot()).(default := v, required := false)
    {
      default := v;
      required := false;
    }

    /** The settings as the binder reads them. */
    function Snapshot(): (p: Param)
      reads this
      ensures p.name == name && p.rules == Settings()
    {
      Param(name, isSwitch, required, fallback, default, Settings())
    }

    /** `parse`, on the current settings. */
    method Parse(argv: string) returns (r: Result<Value, Failure>)
      ensures r == Parsed(Snapshot(), argv)
    {
      r := ParseWith(Snapshot(), argv);
    }
  }

  /**
    `Arg.parse` on the settings `p`: split when `split` is truthy, check the
    piece count, run `_try_parsing`, then unwrap and check a single value.
  */
  method ParseWith(p: Param, argv: string) returns (r: Result<Value, Failure>)
    ensures r == Parsed(p, argv)
  {
    var splitting := p.rules.split.Some? && p.rules.split.value != [];
    var parts := if splitting then Text.Split(argv, p.rules.split.value) else [argv];
    if splitting {
      var counted := CheckRange(p.name, p.rules.min, p.rules.max, Int(|parts|));
      if counted.Failure? {
        return Failure(counted.error);
      }
    }
    var v := TryParsing(p.name, p.rules.validator, p.rules.adapter, Strs(parts));
    if v.Failure? {
      return Failure(v.error);
    }
    if !splitting {
      return CheckRange(p.name, p.rules.min, p.rules.max, v.value[0]);
    }
    return Success(List(v.value));
  }

  /**
    What `Varargs.parse` returns or raises for the collected tokens
    `pending`: the validator and adapters of `p` run once on the whole list,
    which must stay a list.
  */
  function ListCollected(p: Param, pending: seq<string>): (r: Result<seq<Value>, Failure>)
    ensures var whole := List(Strs(pending)); var out := Adapt(Stages(p.rules.adapter), whole);
      r.Success? <==> Admits(p.rules.validator, whole) && out.Some? && out.value.List?
    ensures r.Success? ==> Adapt(Stages(p.rules.adapter), List(Strs(pending))) == Some(List(r.value))
    ensures var whole := List(Strs(pending)); var out := Adapt(Stages(p.rules.adapter), whole);
      Admits(p.rules.validator, whole) && out.Some? && !out.value.List? ==> r == Failure(Uncaught(NotAList, p.name))
    ensures p.rules.validator.NoValidator? && p.rules.adapter.NoAdapter? ==> r == Success(Strs(pending))
  {
    match Bulk(p.name, p.rules.validator, p.rules.adapter, List(Strs(pending)))
    case Failure(e) => Failure(e)
    case Success(v) => if v.List? then Success(v.items) else Failure(Uncaught(NotAList, p.name))
  }

  /** The collector of extra positional values (`*args`). */
  class Varargs {
    const arg: Arg
    var items: seq<string>

    constructor (name: string)
      ensures fresh(arg) && arg.Snapshot() == Initial(name, false) && items == []
    {
      arg := new Arg(name, false);
      items := [];
    }

    /** `add`: appends one raw token. */
    method Add(argv: string)
      modifies this
      ensures items == old(items) + [argv]
    {
      items := items + [argv];
    }

    /** `parse`. */
    method Parse() returns (r: Result<seq<Value>, Failure>)
      ensures r == ListCollected(arg.Snapshot(), items)
    {
      r := CollectList(arg.Snapshot(), items);
    }
  }

  /** `Varargs.parse` on the settings `p` and the collected tokens `pending`. */
  method CollectList(p: Param, pending: seq<string>) returns (r: Result<seq<Value>, Failure>)
    ensures r == ListCollected(p, pending)
  {
    var parsed := TryParsing(p.name, p.rules.validator, p.rules.adapter, [List(Strs(pending))]);
    SegmentsSingle(p.name, p.rules.validator, Stages(p.rules.adapter), List(Strs(pending)));
    if parsed.Failure? {
      return Failure(parsed.error);
    }
    var v := parsed.value[0];
    if !v.List? {
      return Failure(Uncaught(NotAList, p.name));
    }
    return Success(v.items);
  }

  /** Python's `dict` of the collected raw strings. */
  function StrDict(named: map<string, string>): (d: map<string, Value>)
    ensures d.Keys == named.Keys
    ensures forall k :: k in named ==> d[k] == Str(named[k])
  {
    map k | k in named :: Str(named[k])
  }

  /** What `Kwargs.parse` returns or raises for the collected pairs `named`. */
  function DictCollected(p: Param, named: map<string, string>): (r: Result<map<string, Value>, Failure>)
    ensures var whole := Dict(StrDict(named)); var out := Adapt(Stages(p.rules.adapter), whole);
      r.Success? <==> Admits(p.rules.validator, whole) && out.Some? && out.value.Dict?
    ensures r.Success? ==> Adapt(Stages(p.rules.adapter), Dict(StrDict(named))) == Some(Dict(r.value))
    ensures var whole := Dict(StrDict(named)); var out := Adapt(Stages(p.rules.adapter), whole);
      Admits(p.rules.validator, whole) && out.Some? && !out.value.Dict? ==> r == Failure(Uncaught(NotADict, p.name))
    ensures p.rules.validator.NoValidator? && p.rules.adapter.NoAdapter? ==> r == Success(StrDict(named))
  {
    match Bulk(p.name, p.rules.validator, p.rules.adapter, Dict(StrDict(named)))
    case Failure(e) => Failure(e)
    case Success(v) => if v.Dict? then Success(v.entries) else Failure(Uncaught(NotADict, p.name))
  }

  /** The collector of extra named values (`**kwargs`). */
  class Kwargs {
    const arg: Arg
    var items: map<string, string>

    constructor (name: string)
      ensures fresh(arg) && arg.Snapshot() == Initial(name, false) && items == map[]
    {
      arg := new Arg(name, false);
      items := map[];
    }

    /** `add`: a name already collected is rejected and nothing changes. */
    method Add(argv: string, name: string) returns (r: Result<(), Failure>)
      modifies this
      ensures r.Failure? <==> name in old(items)
      ensures r.Failure? ==> r.error == Rejected(KwargExists, name) && items == old(items)
      ensures r.Success? ==> items == old(items)[name := argv]
    {
      if name in items {
        return Failure(Rejected(KwargExists, name));
      }
      items := items[name := argv];
      return Success(());
    }

    /** `parse`. */
    method Parse() returns (r: Result<map<string, Value>, Failure>)
      ensures r == DictCollected(arg.Snapshot(), items)
    {
      r := CollectDict(arg.Snapshot(), items);
    }
  }

  /** `Kwargs.parse` on the settings `p` and the collected pairs `named`. */
  method CollectDict(p: Param, named: map<string, string>) returns (r: Result<map<string, Value>, Failure>)
    ensures r == DictCollected(p, named)
  {
    var parsed := TryParsing(p.name, p.rules.validator, p.rules.adapter, [Dict(StrDict(named))]);
    SegmentsSingle(p.name, p.rules.validator, Stages(p.rules.adapter), Dict(StrDict(named)));
    if parsed.Failure? {
      return Failure(parsed.error);
    }
    var v := parsed.value[0];
    if !v.Dict? {
      return Failure(Uncaught(NotADict, p.name));
    }
    return Success(v.entries);
  }
}
