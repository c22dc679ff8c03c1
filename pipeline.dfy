/**
  The value pipeline of one argument (argz.py `Arg._get_validator`,
  `_get_adapters`, `_try_parsing`, `_check_min_max`, `parse`, and the bulk
  `parse` of the varargs and kwargs collectors): split, range-check the
  number of pieces, validate and adapt every piece, range-check a single
  value.
*/
module Pipeline {
  import opened Wrappers
  import opened Values
  import opened Errors
  import Text

  /**
    The `validator` attribute of an argument: None, a callable, a regular
    expression (a string, whose match is kept abstract), or any container
    tested with `in`.
  */
  datatype Validator =
    | NoValidator
    | Predicate(test: Value -> bool)
    | Pattern(source: string, matches: Value -> bool)
    | Choices(options: seq<Value>)

  /**
    Whether `x` passes validation.  A validator attribute that is falsy (None,
    an empty pattern, an empty container) validates nothing; a callable that
    raises or returns a falsy value is modelled by `test` returning false.
  */
  predicate Admits(v: Validator, x: Value)
    ensures v.NoValidator? || (v.Pattern? && v.source == []) || (v.Choices? && v.options == []) ==> Admits(v, x)
    ensures v.Choices? && v.options != [] ==> (Admits(v, x) <==> x in v.options)
  {
    match v
    case NoValidator => true
    case Predicate(test) => test(x)
    case Pattern(source, matches) => source == [] || matches(x)
    case Choices(options) => options == [] || x in options
  }

  /** One adapter: a builtin type, or any callable (None where it raises). */
  datatype Adapter = Builtin(kind: Prim) | Custom(call: Value -> Option<Value>)

  function Call(a: Adapter, x: Value): Option<Value> {
    match a
    case Builtin(k) => Convert(k, x)
    case Custom(f) => f(x)
  }

  /** The `adapter` attribute: None, one callable, or a list of callables. */
  datatype AdapterSpec = NoAdapter | Single(stage: Adapter) | Chain(stages: seq<Adapter>)

  /** `_get_adapters`: the adapter attribute as a chain. */
  function Stages(spec: AdapterSpec): (r: seq<Adapter>)
    ensures spec.NoAdapter? ==> r == []
    ensures spec.Single? ==> r == [spec.stage]
    ensures spec.Chain? ==> r == spec.stages
  {
    match spec
    case NoAdapter => []
    case Single(a) => [a]
    case Chain(stages) => stages
  }

  /**
    Running a chain left to right, each stage fed the previous stage's
    output; None as soon as a stage raises.
  */
  function Adapt(stages: seq<Adapter>, x: Value): (r: Option<Value>)
    ensures stages == [] ==> r == Some(x)
    ensures r.Some? && stages != [] && stages[|stages| - 1].Builtin? ==> KindOf(r.value) == Some(stages[|stages| - 1].kind)
    decreases |stages|
  {
    if stages == [] then Some(x)
    else
      match Adapt(stages[..|stages| - 1], x)
      case None => None
      case Some(y) => Call(stages[|stages| - 1], y)
  }

  /** Running `a + b` is running `a`, then running `b` on its result. */
  lemma {:induction false} AdaptAppend(a: seq<Adapter>, b: seq<Adapter>, x: Value)
    ensures Adapt(a + b, x) == match Adapt(a, x) case None => None case Some(y) => Adapt(b, y)
    decreases |b|
  {
    if b == [] {
      assert a + b == a;
    } else {
      var b' := b[..|b| - 1];
      assert (a + b)[..|a + b| - 1] == a + b';
      assert (a + b)[|a + b| - 1] == b[|b| - 1];
      AdaptAppend(a, b', x);
    }
  }

  /** The chain's first stage sees the input; a missing adapter is the identity; a single callable is a chain of one. */
  lemma AdaptStages(spec: AdapterSpec, a: Adapter, rest: seq<Adapter>, x: Value)
    ensures Adapt(Stages(NoAdapter), x) == Some(x)
    ensures Adapt(Stages(Single(a)), x) == Call(a, x)
    ensures Adapt([a] + rest, x) == match Call(a, x) case None => None case Some(y) => Adapt(rest, y)
  {
    assert [a][..0] == [];
    AdaptAppend([a], rest, x);
  }

  /** A chain whose prefix raised raises. */
  lemma AdaptPrefixFails(stages: seq<Adapter>, i: nat, x: Value)
    requires i <= |stages| && Adapt(stages[..i], x).None?
    ensures Adapt(stages, x).None?
  {
    assert stages == stages[..i] + stages[i..];
    AdaptAppend(stages[..i], stages[i..], x);
  }

  /** One piece through the validator and then the adapter chain. */
  function Segment(name: string, validator: Validator, stages: seq<Adapter>, x: Value): (r: Result<Value, Failure>)
    ensures r.Success? <==> Admits(validator, x) && Adapt(stages, x).Some?
    ensures r.Success? ==> Adapt(stages, x) == Some(r.value)
    ensures !Admits(validator, x) ==> r == Failure(Rejected(ValidationFailed, name))
  {
    if !Admits(validator, x) then Failure(Rejected(ValidationFailed, name))
    else
      match Adapt(stages, x)
      case None => Failure(Rejected(AdapterFailed, name))
      case Some(y) => Success(y)
  }

  /** `_try_parsing`: every piece in order, aborting at the first one that fails. */
  function Segments(name: string, validator: Validator, stages: seq<Adapter>, parts: seq<Value>): (r: Result<seq<Value>, Failure>)
    ensures r.Success? ==> |r.value| == |parts|
    decreases |parts|
  {
    if parts == [] then Success([])
    else
      var init :- Segments(name, validator, stages, parts[..|parts| - 1]);
      var last :- Segment(name, validator, stages, parts[|parts| - 1]);
      Success(init + [last])
  }

  /**
    The pieces all succeed exactly when each does on its own, and then the
    result holds each piece's outcome at its position; a failure is the
    failure of the first piece that fails.
  */
  lemma {:induction false} SegmentsPointwise(name: string, validator: Validator, stages: seq<Adapter>, parts: seq<Value>)
    ensures Segments(name, validator, stages, parts).Success? <==>
      forall i :: 0 <= i < |parts| ==> Segment(name, validator, stages, parts[i]).Success?
    ensures Segments(name, validator, stages, parts).Success? ==>
      forall i :: 0 <= i < |parts| ==> Segments(name, validator, stages, parts).value[i] == Segment(name, validator, stages, parts[i]).value
    ensures Segments(name, validator, stages, parts).Failure? ==>
      exists k :: 0 <= k < |parts| && Segment(name, validator, stages, parts[k]) == Failure(Segments(name, validator, stages, parts).error)
        && forall j :: 0 <= j < k ==> Segment(name, validator, stages, parts[j]).Success?
    decreases |parts|
  {
    if parts != [] {
      var init := parts[..|parts| - 1];
      SegmentsPointwise(name, validator, stages, init);
      assert forall i :: 0 <= i < |init| ==> init[i] == parts[i];
    }
  }

  /** A single piece succeeds or fails as that piece does. */
  lemma SegmentsSingle(name: string, validator: Validator, stages: seq<Adapter>, x: Value)
    ensures Segments(name, validator, stages, [x]) ==
      match Segment(name, validator, stages, x)
      case Success(y) => Success([y])
      case Failure(e) => Failure(e)
  {
    assert [x][..0] == [];
    assert Segments(name, validator, stages, []) == Success([]);
    match Segment(name, validator, stages, x)
    case Success(y) =>
      assert [] + [y] == [y];
    case Failure(e) =>
  }

  /** Once a prefix of the pieces has failed, the whole fails the same way. */
  lemma {:induction false} SegmentsPrefixFails(name: string, validator: Validator, stages: seq<Adapter>, parts: seq<Value>, k: nat)
    requires k <= |parts| && Segments(name, validator, stages, parts[..k]).Failure?
    ensures Segments(name, validator, stages, parts) == Segments(name, validator, stages, parts[..k])
    decreases |parts| - k
  {
    if k < |parts| {
      var init := parts[..|parts| - 1];
      assert init[..k] == parts[..k];
      SegmentsPrefixFails(name, validator, stages, init, k);
    } else {
      assert parts[..k] == parts;
    }
  }

  /** `min <= v <= max`, inclusive, each bound optional; a set bound needs a value comparable with an int. */
  predicate InRange(min: Option<int>, max: Option<int>, v: Value) {
    && (min.Some? ==> AsNumber(v).Some? && min.value <= AsNumber(v).value)
    && (max.Some? ==> AsNumber(v).Some? && AsNumber(v).value <= max.value)
  }

  /** `_check_min_max`: `v` itself when it lies within the bounds. */
  function CheckRange(name: string, min: Option<int>, max: Option<int>, v: Value): (r: Result<Value, Failure>)
    ensures r.Success? <==> InRange(min, max, v)
    ensures r.Success? ==> r.value == v
    ensures min.Some? && AsNumber(v).Some? && AsNumber(v).value < min.value ==> r == Failure(Rejected(BelowMin, name))
    ensures r.Failure? && !(min.Some? && AsNumber(v).Some? && AsNumber(v).value < min.value) && AsNumber(v).Some?
      ==> r == Failure(Rejected(AboveMax, name))
  {
    if min.Some? && AsNumber(v).None? then Failure(Uncaught(Incomparable, name))
    else if min.Some? && AsNumber(v).value < min.value then Failure(Rejected(BelowMin, name))
    else if max.Some? && AsNumber(v).None? then Failure(Uncaught(Incomparable, name))
    else if max.Some? && AsNumber(v).value > max.value then Failure(Rejected(AboveMax, name))
    else Success(v)
  }

  /** The attributes of an argument that drive its pipeline. */
  datatype Rules = Rules(validator: Validator, adapter: AdapterSpec, split: Option<string>, min: Option<int>, max: Option<int>)

  /** Splitting happens only when the `split` attribute is truthy (set and non-empty). */
  predicate Splitting(split: Option<string>) {
    split.Some? && split.value != []
  }

  /** `Arg.parse`: the whole pipeline applied to one raw string. */
  function ParseValue(name: string, rules: Rules, argv: string): (r: Result<Value, Failure>)
    ensures Splitting(rules.split) && r.Success? ==>
      && r.value.List? && |r.value.items| == |Text.Split(argv, rules.split.value)|
      && InRange(rules.min, rules.max, Int(|Text.Split(argv, rules.split.value)|))
    ensures !Splitting(rules.split) && r.Success? ==> InRange(rules.min, rules.max, r.value)
    ensures !Splitting(rules.split) && !Admits(rules.validator, Str(argv)) ==> r == Failure(Rejected(ValidationFailed, name))
  {
    var stages := Stages(rules.adapter);
    if Splitting(rules.split) then
      var parts := Text.Split(argv, rules.split.value);
      var _ :- CheckRange(name, rules.min, rules.max, Int(|parts|));
      var vs :- Segments(name, rules.validator, stages, Strs(parts));
      Success(List(vs))
    else
      SegmentsSingle(name, rules.validator, stages, Str(argv));
      var vs :- Segments(name, rules.validator, stages, [Str(argv)]);
      CheckRange(name, rules.min, rules.max, vs[0])
  }

  /**
    With a split, the number of pieces is checked first: when it is out of
    bounds the outcome is that range failure, whatever the validator and
    adapters would have done.
  */
  lemma SplitCountCheckedFirst(name: string, rules: Rules, argv: string, validator: Validator, adapter: AdapterSpec)
    requires Splitting(rules.split)
    requires !InRange(rules.min, rules.max, Int(|Text.Split(argv, rules.split.value)|))
    ensures ParseValue(name, rules, argv).Failure?
    ensures ParseValue(name, rules, argv) == ParseValue(name, rules.(validator := validator, adapter := adapter), argv)
  {
  }

  /**
    With a split, the result is the list of the adapted pieces, one per piece
    in order, each piece validated, and the number of pieces within bounds;
    and every such list is the result.
  */
  lemma SplitResult(name: string, rules: Rules, argv: string, vs: seq<Value>)
    requires Splitting(rules.split)
    ensures var parts := Text.Split(argv, rules.split.value);
      ParseValue(name, rules, argv) == Success(List(vs)) <==>
        && InRange(rules.min, rules.max, Int(|parts|))
        && |vs| == |parts|
        && forall i :: 0 <= i < |parts| ==>
             Admits(rules.validator, Str(parts[i])) && Adapt(Stages(rules.adapter), Str(parts[i])) == Some(vs[i])
  {
    var parts := Text.Split(argv, rules.split.value);
    var stages := Stages(rules.adapter);
    SegmentsPointwise(name, rules.validator, stages, Strs(parts));
    var seg := Segments(name, rules.validator, stages, Strs(parts));
    if InRange(rules.min, rules.max, Int(|parts|)) && |vs| == |parts|
       && forall i :: 0 <= i < |parts| ==> Admits(rules.validator, Str(parts[i])) && Adapt(stages, Str(parts[i])) == Some(vs[i])
    {
      assert forall i :: 0 <= i < |parts| ==> Segment(name, rules.validator, stages, Strs(parts)[i]) == Success(vs[i]);
      assert seg.value == vs;
    }
  }

  /**
    Without a split, the result is the adapted input, which passed the
    validator and lies within the bounds; and every such value is the result.
  */
  lemma ScalarResult(name: string, rules: Rules, argv: string, v: Value)
    requires !Splitting(rules.split)
    ensures ParseValue(name, rules, argv) == Success(v) <==>
      && Admits(rules.validator, Str(argv))
      && Adapt(Stages(rules.adapter), Str(argv)) == Some(v)
      && InRange(rules.min, rules.max, v)
  {
    SegmentsPointwise(name, rules.validator, Stages(rules.adapter), [Str(argv)]);
  }

  /** With no validator, split or bounds, parsing is exactly the adapter chain `fn(...f1(s))`. */
  lemma PlainIsAdapterChain(name: string, stages: seq<Adapter>, argv: string)
    ensures ParseValue(name, Rules(NoValidator, Chain(stages), None, None, None), argv) ==
      match Adapt(stages, Str(argv))
      case Some(v) => Success(v)
      case None => Failure(Rejected(AdapterFailed, name))
  {
    SegmentsSingle(name, NoValidator, stages, Str(argv));
  }

  /** `"2,1".split(',')` is `["2", "1"]`. */
  lemma SplitTwoPieces()
    ensures Text.Split("2,1", ",") == ["2", "1"]
  {
    var sep := ",";
    assert "2,1"[0..1] == "2" && "2,1"[1..2] == sep;
    assert Text.FindFrom("2,1", sep, 1) == Some(1);
    assert Text.FindFrom("2,1", sep, 0) == Some(1);
    assert "2,1"[2..] == "1";
    assert Text.FindFrom("1", sep, 0) == None;
  }

  /** `"3,2,1".split(',')` is `["3", "2", "1"]`. */
  lemma SplitThreePieces()
    ensures Text.Split("3,2,1", ",") == ["3", "2", "1"]
  {
    var sep := ",";
    assert "3,2,1"[0..1] == "3" && "3,2,1"[1..2] == sep;
    assert Text.FindFrom("3,2,1", sep, 1) == Some(1);
    assert Text.FindFrom("3,2,1", sep, 0) == Some(1);
    assert "3,2,1"[2..] == "2,1";
    SplitTwoPieces();
  }

  /** `str.split(',')` with `min = 2`: three pieces pass, one piece is too few. */
  lemma SplitMinExample()
    ensures ParseValue("xs", Rules(NoValidator, NoAdapter, Some(","), Some(2), None), "3,2,1")
      == Success(List([Str("3"), Str("2"), Str("1")]))
    ensures ParseValue("xs", Rules(NoValidator, NoAdapter, Some(","), Some(2), None), "3")
      == Failure(Rejected(BelowMin, "xs"))
  {
    var r := Rules(NoValidator, NoAdapter, Some(","), Some(2), None);
    var parts := ["3", "2", "1"];
    var vs := [Str("3"), Str("2"), Str("1")];
    SplitThreePieces();
    assert InRange(r.min, r.max, Int(|parts|));
    assert forall i :: 0 <= i < |parts| ==> Admits(r.validator, Str(parts[i])) && Adapt(Stages(r.adapter), Str(parts[i])) == Some(vs[i]);
    SplitResult("xs", r, "3,2,1", vs);
    SplitTooFew(r);
  }

  /** One piece where `min = 2` asks for at least two fails the range check. */
  lemma SplitTooFew(r: Rules)
    requires r.split == Some(",") && r.min == Some(2)
    ensures ParseValue("xs", r, "3") == Failure(Rejected(BelowMin, "xs"))
  {
    assert "3"[0..1] == "3";
    assert Text.FindFrom("3", ",", 0) == None;
    assert Text.Split("3", ",") == ["3"];
  }

  /** An `int` adapter with `min = 1, max = 10`: "0" is below the range, "5" is 5. */
  lemma IntRangeExample()
    ensures ParseValue("count", Rules(NoValidator, Single(Builtin(IntType)), None, Some(1), Some(10)), "0")
      == Failure(Rejected(BelowMin, "count"))
    ensures ParseValue("count", Rules(NoValidator, Single(Builtin(IntType)), None, Some(1), Some(10)), "5")
      == Success(Int(5))
  {
    assert ParseInt("0") == Some(0);
    assert ParseInt("5") == Some(5);
    assert [Str("0")][..0] == [];
    assert [Str("5")][..0] == [];
  }

  /**
    The collectors' `parse`: `_try_parsing` over a one-element list holding
    the whole collected value, so the validator and the chain run once on it.
  */
  function Bulk(name: string, validator: Validator, adapter: AdapterSpec, whole: Value): (r: Result<Value, Failure>)
    ensures r.Success? <==> Admits(validator, whole) && Adapt(Stages(adapter), whole).Some?
    ensures r.Success? ==> Adapt(Stages(adapter), whole) == Some(r.value)
  {
    SegmentsSingle(name, validator, Stages(adapter), whole);
    var vs :- Segments(name, validator, Stages(adapter), [whole]);
    Success(vs[0])
  }

  /** The inner loop of `_try_parsing`: each adapter in turn rebinds the piece; a raise ends it. */
  method RunAdapters(adapters: seq<Adapter>, x: Value) returns (r: Option<Value>)
    ensures r == Adapt(adapters, x)
  {
    var p := x;
    var i := 0;
    while i < |adapters|
      invariant 0 <= i <= |adapters|
      invariant Adapt(adapters[..i], x) == Some(p)
    {
      assert adapters[..i + 1][..i] == adapters[..i];
      var q := Call(adapters[i], p);
      if q.None? {
        AdaptPrefixFails(adapters, i + 1, x);
        return None;
      }
      p := q.value;
      i := i + 1;
    }
    assert adapters[..i] == adapters;
    return Some(p);
  }

  /**
    The loop of `_try_parsing`: for each piece, the validator, then each
    adapter in turn rebinding the piece, then the piece appended.
  */
  method TryParsing(name: string, validator: Validator, adapter: AdapterSpec, parts: seq<Value>)
    returns (r: Result<seq<Value>, Failure>)
    ensures r == Segments(name, validator, Stages(adapter), parts)
  {
    var adapters := Stages(adapter);
    var oparts: seq<Value> := [];
    for k := 0 to |parts|
      invariant Segments(name, validator, adapters, parts[..k]) == Success(oparts)
    {
      var p := parts[k];
      assert parts[..k + 1][..k] == parts[..k];
      if !Admits(validator, p) {
        SegmentsPrefixFails(name, validator, adapters, parts, k + 1);
        return Failure(Rejected(ValidationFailed, name));
      }
      var q := RunAdapters(adapters, p);
      if q.None? {
        SegmentsPrefixFails(name, validator, adapters, parts, k + 1);
        return Failure(Rejected(AdapterFailed, name));
      }
      oparts := oparts + [q.value];
    }
    assert parts[..|parts|] == parts;
    r := Success(oparts);
  }
}
