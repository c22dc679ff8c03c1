/**
  The two routes of the repository's test suite, bound end to end:
  `route_defarg(reqarg, defarg=1)` and `route_allow_all(*args, **kwargs)`.
*/
module Scenarios {
  import opened Wrappers
  import opened Values
  import opened Errors
  import opened Args
  import opened Pipeline
  import opened Binding
  import BinderFacts
  import TableFacts

  /** `def route_defarg(reqarg, defarg=1)`. */
  function DefArg(): (sig: Signature)
    ensures Proper(sig)
  {
    Signature(["reqarg", "defarg"], [Int(1)], None, None)
  }

  /** `def route_allow_all(*args, **kwargs)`. */
  function AllowAll(): (sig: Signature)
    ensures Proper(sig)
  {
    Signature([], [], Some("args"), Some("kwargs"))
  }

  /** The one token binds the required parameter; the other receives its default, 1. */
  lemma DefaultFilledAtIndexOne()
    ensures Called(Declared(DefArg()), ["required"], [], map[]).result
      == Success(Bound([Str("required"), Int(1)], map[]))
  {
    var sig := DefArg();
    var t := Declared(sig);
    TableFacts.DeclaredAt(sig, 0);
    TableFacts.DeclaredAt(sig, 1);
    var s0 := Start(t, ["required"], [], map[]);
    assert "required"[..1] == "r";
    BinderFacts.PositionalTakesEarliest(t, s0, 0);
    TableFacts.UndefaultedTakesText(sig, 0, "required");
    var s1 := s0.(rest := [], leftover := ["defarg"], parsed := map["reqarg" := Str("required")]);
    assert Step(t, s0) == Next(s1);
    assert Drain(t, s0) == Next(s1);
    TableFacts.OmittedDefaultFilled(sig, 1, s1.parsed);
    var all := map["reqarg" := Str("required"), "defarg" := Int(1)];
    assert Resolve(t, s1.leftover, s1.parsed) == Success(all);
    var out := [Str("required"), Int(1)];
    assert Ordered(t.names, all) == out;
    assert Finish(t, all, [], map[]) == Success(Bound(out + [], map[]));
    assert out + [] == out;
  }

  /** Without a value for the required parameter the call fails before any default is used. */
  lemma RequiredMissing()
    ensures Called(Declared(DefArg()), [], [], map[]).result
      == Failure(Missing(RequiredArgument, "reqarg"))
  {
    TableFacts.OmittedRequiredMissing(DefArg(), 0, ["defarg"], map[]);
  }

  /** Every bare token goes to `*args`, in order, and nothing to `**kwargs`. */
  lemma AllowAllCollects()
    ensures var o := Called(Declared(AllowAll()), ["arg1", "arg2"], [], map[]);
      o.result == Success(Bound([Str("arg1"), Str("arg2")], map[]))
      && o.pending == ["arg1", "arg2"]
  {
    var t := Declared(AllowAll());
    var s0 := Start(t, ["arg1", "arg2"], [], map[]);
    assert "arg1"[..1] == "a" && "arg2"[..1] == "a";
    BinderFacts.PositionalOverflows(t, s0);
    var s1 := s0.(rest := ["arg2"], pending := ["arg1"]);
    assert s0.rest[1..] == ["arg2"];
    assert Step(t, s0) == Next(s1);
    BinderFacts.PositionalOverflows(t, s1);
    var s2 := s1.(rest := [], pending := ["arg1", "arg2"]);
    assert Step(t, s1) == Next(s2);
    assert Drain(t, s1) == Next(s2);
    assert Drain(t, s0) == Next(s2);
    var out := [Str("arg1"), Str("arg2")];
    assert Strs(s2.pending) == out;
    assert ListCollected(t.varargs.value, s2.pending) == Success(out);
    assert s2.leftover == [] && s2.parsed == map[];
    assert Resolve(t, s2.leftover, s2.parsed) == Success(map[]);
    assert Ordered(t.names, map[]) == [];
    assert s2.parsed.Keys * s2.named.Keys == {};
    assert Finish(t, map[], s2.pending, s2.named) == Success(Bound([] + out, map[]));
    assert [] + out == out;
    assert Settled(t, s2) == Success(Bound(out, map[]));
  }

  /**
    The varargs collector is never emptied: a second call on the same route
    returns the tokens of the first call before its own.
  */
  lemma AllowAllAccumulates()
    ensures Called(Declared(AllowAll()), ["arg3"], ["arg1", "arg2"], map[]).result
      == Success(Bound([Str("arg1"), Str("arg2"), Str("arg3")], map[]))
  {
    var t := Declared(AllowAll());
    var s0 := Start(t, ["arg3"], ["arg1", "arg2"], map[]);
    assert "arg3"[..1] == "a";
    BinderFacts.PositionalOverflows(t, s0);
    var s1 := s0.(rest := [], pending := ["arg1", "arg2", "arg3"]);
    assert Step(t, s0) == Next(s1);
    assert Drain(t, s0) == Next(s1);
    var out := [Str("arg1"), Str("arg2"), Str("arg3")];
    assert Strs(s1.pending) == out;
    assert ListCollected(t.varargs.value, s1.pending) == Success(out);
    assert s1.leftover == [] && s1.parsed == map[];
    assert Resolve(t, s1.leftover, s1.parsed) == Success(map[]);
    assert Ordered(t.names, map[]) == [];
    assert s1.parsed.Keys * s1.named.Keys == {};
    assert Finish(t, map[], s1.pending, s1.named) == Success(Bound([] + out, map[]));
    assert [] + out == out;
    assert Settled(t, s1) == Success(Bound(out, map[]));
  }

  /** `--key value` goes to `**kwargs` under `key`. */
  lemma AllowAllNamed()
    ensures Called(Declared(AllowAll()), ["--key", "value"], [], map[]).result
      == Success(Bound([], map["key" := Str("value")]))
  {
    var t := Declared(AllowAll());
    var s0 := Start(t, ["--key", "value"], [], map[]);
    assert "key"[..1] == "k";
    assert "--" + "key" == "--key";
    BinderFacts.UndeclaredWithKwargs(t, s0, "key");
    var s1 := s0.(rest := [], named := map["key" := "value"]);
    assert Step(t, s0) == Next(s1);
    assert Drain(t, s0) == Next(s1);
    var out := map["key" := Str("value")];
    assert StrDict(s1.named) == out;
    assert DictCollected(t.kwargs.value, s1.named) == Success(out);
    assert s1.leftover == [] && s1.parsed == map[];
    assert Resolve(t, s1.leftover, s1.parsed) == Success(map[]);
    assert Ordered(t.names, map[]) == [];
    assert s1.parsed.Keys * s1.named.Keys == {};
    var none: seq<Value> := [];
    assert none + none == [];
    assert Finish(t, map[], s1.pending, s1.named) == Success(Bound([], out));
    assert Settled(t, s1) == Success(Bound([], out));
  }
}
