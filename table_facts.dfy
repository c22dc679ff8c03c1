/**
  What the parameter table built by argz.py `Route.__init__` means for the
  binder: trailing parameters with defaults are optional and receive their
  default when no token binds them, the others are required, a boolean
  default makes a switch, and a default's type becomes the adapter.
*/
module TableFacts {
  import opened Wrappers
  import opened Values
  import opened Errors
  import opened Pipeline
  import opened Args
  import opened Binding
  import BinderFacts
  import Text

  /** The settings the table gives the `i`-th parameter, read off the signature. */
  lemma {:induction false} DeclaredAt(sig: Signature, i: nat)
    requires Proper(sig) && i < |sig.params|
    ensures var p := Declared(sig).params[sig.params[i]];
      var start := |sig.params| - |sig.defaults|;
      && p.name == sig.params[i]
      && (p.required <==> i < start)
      && (i >= start ==> p.default == sig.defaults[i - start])
      && (p.isSwitch <==> i >= start && sig.defaults[i - start].Bool?)
      && p.fallback.None? && p.rules.validator.NoValidator?
      && p.rules.split.None? && p.rules.min.None? && p.rules.max.None?
      && p.rules.adapter == (if i >= start && KindOf(sig.defaults[i - start]).Some?
                             then Single(Builtin(KindOf(sig.defaults[i - start]).value))
                             else NoAdapter)
  {
    IndexOfDistinct(sig.params, i);
  }

  /**
    Keying each parsed value by `names.index` of its name and reading the
    keys in ascending order gives the values in declaration order: the keys
    are exactly the positions `0 .. |names| - 1`, and each holds `Ordered`'s
    entry there.
  */
  lemma IndexedReadsOrdered(names: seq<string>, parsed: map<string, Value>)
    requires Distinct(names) && forall n :: n in parsed <==> n in names
    ensures var out := Indexed(names, parsed);
      && (forall i :: i in out <==> 0 <= i < |names|)
      && (forall i :: 0 <= i < |names| ==> out[i] == Ordered(names, parsed)[i])
  {
    var out := Indexed(names, parsed);
    forall i | 0 <= i < |names|
      ensures i in out && out[i] == parsed[names[i]]
    {
      IndexOfDistinct(names, i);
      assert names[i] in parsed;
    }
    forall i | i in out
      ensures i < |names|
    {
      var n :| n in parsed && IndexOf(names, n) == i;
    }
  }

  lemma {:induction false} IndexOfDistinct(s: seq<string>, i: nat)
    requires Distinct(s) && i < |s|
    ensures IndexOf(s, s[i]) == i
  {
    if i > 0 {
      DistinctTail(s);
      assert s[1..][i - 1] == s[i];
      IndexOfDistinct(s[1..], i - 1);
    }
  }

  /** A parameter with a default that no token bound receives the default as it is. */
  lemma OmittedDefaultFilled(sig: Signature, i: nat, parsed: map<string, Value>)
    requires Proper(sig) && |sig.params| - |sig.defaults| <= i < |sig.params|
    ensures var n := sig.params[i];
      Resolve(Declared(sig), [n], parsed) == Success(parsed[n := sig.defaults[i - (|sig.params| - |sig.defaults|)]])
  {
    DeclaredAt(sig, i);
  }

  /** A parameter without a default that no token bound is reported missing. */
  lemma OmittedRequiredMissing(sig: Signature, i: nat, later: seq<string>, parsed: map<string, Value>)
    requires Proper(sig) && i < |sig.params| - |sig.defaults|
    requires forall n :: n in later ==> n in sig.params
    ensures Resolve(Declared(sig), [sig.params[i]] + later, parsed) == Failure(Missing(RequiredArgument, sig.params[i]))
  {
    DeclaredAt(sig, i);
    assert ([sig.params[i]] + later)[0] == sig.params[i];
  }

  /** A parameter whose default is a bool is a switch: `-name` binds the negated default. */
  lemma BoolDefaultFlips(sig: Signature, i: nat, run: Run)
    requires Proper(sig) && |sig.params| - |sig.defaults| <= i < |sig.params|
    requires sig.defaults[i - (|sig.params| - |sig.defaults|)].Bool?
    requires Wf(Declared(sig), run) && sig.params[i] !in run.parsed
    requires sig.params[i] != "" && !Text.StartsWith(sig.params[i], "-")
    requires run.rest != [] && run.rest[0] == "-" + sig.params[i]
    ensures var b := sig.defaults[i - (|sig.params| - |sig.defaults|)].b;
      Step(Declared(sig), run) == Next(run.(
        rest := run.rest[1..],
        leftover := Remove(run.leftover, sig.params[i]),
        parsed := run.parsed[sig.params[i] := Bool(!b)]))
  {
    DeclaredAt(sig, i);
    BinderFacts.SwitchFlips(Declared(sig), run, sig.params[i]);
    BinderFacts.ClassifyShort(sig.params[i]);
  }

  /** A parameter without a default takes its token as the string it is. */
  lemma UndefaultedTakesText(sig: Signature, i: nat, v: string)
    requires Proper(sig) && i < |sig.params| - |sig.defaults|
    ensures Parsed(Declared(sig).params[sig.params[i]], v) == Success(Str(v))
  {
    DeclaredAt(sig, i);
    PlainIsAdapterChain(sig.params[i], [], v);
  }

  /** A parameter whose default is an int reads the text of any int as that int. */
  lemma IntDefaultReadsInts(sig: Signature, i: nat, k: int)
    requires Proper(sig) && |sig.params| - |sig.defaults| <= i < |sig.params|
    requires sig.defaults[i - (|sig.params| - |sig.defaults|)].Int?
    ensures Parsed(Declared(sig).params[sig.params[i]], IntText(k)) == Success(Int(k))
  {
    IndexOfDistinct(sig.params, i);
    IntTextRoundTrip(k);
    PlainIsAdapterChain(sig.params[i], [Builtin(IntType)], IntText(k));
  }
}
