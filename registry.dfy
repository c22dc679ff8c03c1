/**
  The route registry (argz.py `TargetList`) and the dispatch of a command
  line to one of its routes (`_parse`): help requests and the missing-route
  error are decided on the first token before any route binds anything, a
  lone route takes every token, and with several routes the first token
  names the route.
*/
module Registry {
  import opened Wrappers
  import opened Errors
  import opened Binding
  import Text

  /** The tokens that ask for help, compared after lower-casing the first token. */
  const HelpOptions: seq<string> := ["-h", "/h", "-?", "/?", "/help", "--help"]

  /** The attributes a `TargetList` owns itself; no route may take one of these names. */
  const Members: set<string> := {"__name__", "_targets"}

  /**
    What `_parse` decides from the registered route names `order` (in
    registration order) and the tokens `parts`: the route to call and the
    tokens it receives, or the error raised before any route is called.
  */
  function Select(order: seq<string>, parts: seq<string>, helpOptions: seq<string>): (r: Result<(string, seq<string>), Failure>)
    ensures r.Success? ==> r.value.0 in order && parts != []
    ensures r.Success? ==> r.value.1 == parts || r.value.1 == parts[1..]
    ensures r.Success? ==> Text.Lower(parts[0]) !in helpOptions
  {
    if order == [] then Failure(Uncaught(NoTargets, ""))
    else if parts == [] then Failure(HelpRequested(Usage))
    else if Text.Lower(parts[0]) in helpOptions then
      if |parts| > 1 && parts[1] in order then Failure(HelpRequested(RouteHelp(parts[1])))
      else Failure(HelpRequested(Detailed(parts[0])))
    else if |order| == 1 then Success((order[0], parts))
    else if parts[0] in order then Success((parts[0], parts[1..]))
    else Failure(MissingRoute(parts[0]))
  }

  /** With no tokens at all, a registry with routes answers with the usage text. */
  lemma NoTokensShowUsage(order: seq<string>, helpOptions: seq<string>)
    requires order != []
    ensures Select(order, [], helpOptions) == Failure(HelpRequested(Usage))
  {
  }

  /**
    A help token is answered before any route is chosen: with the help of
    the route named next, if there is one, and with the detailed help
    otherwise.
  */
  lemma HelpBeforeRouting(order: seq<string>, parts: seq<string>, helpOptions: seq<string>)
    requires order != [] && parts != [] && Text.Lower(parts[0]) in helpOptions
    ensures Select(order, parts, helpOptions).Failure?
    ensures Select(order, parts, helpOptions).error.HelpRequested?
    ensures var h := Select(order, parts, helpOptions).error.help;
      (h.RouteHelp? <==> |parts| > 1 && parts[1] in order)
      && (h.RouteHelp? ==> h.route == parts[1])
      && (h.Detailed? ==> h.option == parts[0])
  {
  }

  /**
    A lone route is called with every token, even when the first token
    spells the route's own name.
  */
  lemma LoneRouteTakesAll(route: string, parts: seq<string>, helpOptions: seq<string>)
    requires parts != [] && Text.Lower(parts[0]) !in helpOptions
    ensures Select([route], parts, helpOptions) == Success((route, parts))
  {
  }

  /**
    With several routes the first token must name one of them: the call
    goes to that route with the remaining tokens, and otherwise the token
    is reported as a missing route.
  */
  lemma FirstTokenNamesRoute(order: seq<string>, parts: seq<string>, helpOptions: seq<string>)
    requires |order| > 1 && parts != [] && Text.Lower(parts[0]) !in helpOptions
    ensures Select(order, parts, helpOptions).Success? <==> parts[0] in order
    ensures parts[0] in order ==> Select(order, parts, helpOptions) == Success((parts[0], parts[1..]))
    ensures parts[0] !in order ==> Select(order, parts, helpOptions) == Failure(MissingRoute(parts[0]))
  {
  }

  /** Every help option is already lower-case. */
  lemma HelpOptionsLowerCase()
    ensures forall h :: h in HelpOptions ==> Text.Lower(h) == h
  {
  }

  /**
    Any capitalisation of a help option asks for help: a first token that
    differs from `h` only in the case of its ASCII letters lowers to `h`.
  */
  lemma CapitalisedHelp(order: seq<string>, parts: seq<string>, h: string)
    requires order != [] && parts != [] && h in HelpOptions
    requires |parts[0]| == |h| && forall i :: 0 <= i < |h| ==> Text.LowerChar(parts[0][i]) == h[i]
    ensures Select(order, parts, HelpOptions).Failure?
    ensures Select(order, parts, HelpOptions).error.HelpRequested?
  {
    assert Text.Lower(parts[0]) == h;
  }

  /**
    The names `order` are distinct and are the keys of `targets`, and each
    collector of a route belongs, in `owner`, to that route alone.
  */
  ghost predicate Registry(order: seq<string>, targets: map<string, Route>, owner: map<object, string>) {
    Distinct(order)
    && (forall n :: n in targets <==> n in order)
    && (forall n, o :: n in targets && o in targets[n].Collectors() ==> o in owner && owner[o] == n)
  }

  /** Registering a new name with fresh collectors keeps the registry consistent. */
  lemma RegistryAdd(order: seq<string>, targets: map<string, Route>, owner: map<object, string>, name: string, route: Route)
    requires Registry(order, targets, owner) && name !in targets && route.Collectors() !! owner.Keys
    ensures Registry(order + [name], targets[name := route], owner + map o | o in route.Collectors() :: name)
  {
    DistinctAppend(order, name);
    var owner' := owner + map o | o in route.Collectors() :: name;
    var targets' := targets[name := route];
    forall n, o | n in targets' && o in targets'[n].Collectors()
      ensures o in owner' && owner'[o] == n
    {
      if n != name {
        assert o in owner && o !in route.Collectors();
      }
    }
  }

  /** A sequence without repeats has as many elements as its set of elements. */
  lemma {:induction false} DistinctCount(s: seq<string>)
    requires Distinct(s)
    ensures |set x | x in s| == |s|
  {
    if s != [] {
      DistinctTail(s);
      DistinctCount(s[1..]);
      assert (set x | x in s) == {s[0]} + (set x | x in s[1..]);
    }
  }

  /** `TargetList`: the routes, by name, in the order they were added. */
  class TargetList {
    var order: seq<string>
    var targets: map<string, Route>
    /** The route each collector belongs to; no collector is shared. */
    ghost var owner: map<object, string>

    constructor ()
      ensures Valid() && order == [] && targets == map[] && owner == map[]
    {
      order := [];
      targets := map[];
      owner := map[];
    }

    /**
      The names are distinct and are exactly the registered routes, each
      route is valid, and each collector belongs to its route alone.
    */
    ghost predicate Valid()
      reads this, owner.Keys
    {
      Registry(order, targets, owner) && forall n :: n in targets ==> targets[n].Valid()
    }

    /**
      `__call__(fref)`: registers the route of a function named `name` with
      signature `sig`.  A name already registered, a name that is one of the
      registry's own attributes, and a parameter that would shadow a route
      attribute are refused, and then nothing changes.
    */
    method Add(name: string, sig: Signature) returns (r: Result<Route, Failure>)
      requires Valid() && Proper(sig)
      modifies this
      ensures Valid()
      ensures r.Success? <==> name !in old(targets) && name !in Members && Shadowed(sig.params) == []
      ensures name in old(targets) ==> r == Failure(General(RouteExists, name))
      ensures name !in old(targets) && name in Members ==> r == Failure(Uncaught(SameNameAsMember, name))
      ensures name !in old(targets) && name !in Members && Shadowed(sig.params) != [] ==>
        r == Failure(Uncaught(ShadowsRouteMembers, Shadowed(sig.params)[0]))
      ensures r.Failure? ==> order == old(order) && targets == old(targets)
      ensures r.Success? ==> fresh(r.value) && targets == old(targets)[name := r.value] && order == old(order) + [name]
    {
      if name in targets {
        return Failure(General(RouteExists, name));
      }
      if name in Members {
        return Failure(Uncaught(SameNameAsMember, name));
      }
      r := Build(sig);
      if r.Failure? {
        return;
      }
      Insert(name, r.value);
    }

    /** Records a new route under a new name, last in order. */
    method Insert(name: string, route: Route)
      requires Valid() && name !in targets && route.Valid() && route.Collectors() !! owner.Keys
      modifies this
      ensures Valid()
      ensures targets == old(targets)[name := route] && order == old(order) + [name]
    {
      RegistryAdd(order, targets, owner, name, route);
      order := order + [name];
      targets := targets[name := route];
      owner := owner + map o | o in route.Collectors() :: name;
    }

    /** Two registered routes share no collector. */
    lemma Separate(a: string, b: string)
      requires Valid() && a in targets && b in targets && a != b
      ensures targets[a].Collectors() !! targets[b].Collectors()
    {
      forall o | o in targets[a].Collectors()
        ensures o !in targets[b].Collectors()
      {
        assert owner[o] == a;
      }
    }

    /** `getDefaultRoute`: the route, when exactly one is registered. */
    function DefaultRoute(): (r: Option<Route>)
      requires Valid()
      reads this, owner.Keys
      ensures r.Some? <==> |targets| == 1
      ensures r.Some? ==> r.value in targets.Values && r.value == targets[order[0]]
    {
      assert targets.Keys == set x | x in order;
      DistinctCount(order);
      if |order| == 1 then Some(targets[order[0]]) else None
    }

    /** `__contains__`. */
    predicate Contains(name: string)
      reads this
    {
      name in targets
    }

    /**
      When nothing outside the collectors of the route `name` changed, every
      other route keeps its collectors' contents and stays valid.
    */
    twostate lemma OthersKept(name: string)
      requires old(Valid()) && unchanged(this) && name in targets
      requires unchanged(old(owner.Keys) - targets[name].Collectors())
      ensures forall m :: m in targets && m != name ==> targets[m].Valid()
      ensures forall m :: m in targets && m != name ==>
        targets[m].Pending() == old(targets[m].Pending()) && targets[m].Named() == old(targets[m].Named())
    {
      forall m | m in targets && m != name
        ensures unchanged(targets[m].Collectors())
      {
        forall o | o in targets[m].Collectors()
          ensures o in old(owner.Keys) - targets[name].Collectors()
        {
          assert o in owner && owner[o] == m;
        }
      }
    }

    /**
      Calls the route registered as `name` with the tokens `rest`.  Only
      that route's collectors change: every other route keeps what it
      collected.
    */
    method Dispatch(name: string, rest: seq<string>) returns (r: Result<Bound, Failure>)
      requires Valid() && name in targets
      modifies owner.Keys
      ensures order == old(order) && targets == old(targets) && owner == old(owner)
      ensures targets[name].Valid()
      ensures var route := targets[name];
        var o := Called(old(route.Current()), rest, old(route.Pending()), old(route.Named()));
        r == o.result && route.Pending() == o.pending && route.Named() == o.named
      ensures unchanged(owner.Keys - targets[name].Collectors())
    {
      var route := targets[name];
      r := route.Call(rest);
    }

    /**
      `_parse(parts, help_options)`: chooses the route as `Select` does,
      calls it with its tokens, and returns the route's name with what it
      bound.  Only the chosen route's collectors change: every other route
      keeps what it collected.
    */
    method Parse(parts: seq<string>, helpOptions: seq<string>) returns (r: Result<(string, Bound), Failure>)
      requires Valid()
      modifies owner.Keys
      ensures Valid() && order == old(order) && targets == old(targets) && owner == old(owner)
      ensures var s := Select(order, parts, helpOptions);
        s.Failure? ==> r == Failure(s.error) && unchanged(owner.Keys)
      ensures var s := Select(order, parts, helpOptions);
        s.Success? ==>
          var route := targets[s.value.0];
          var o := Called(old(route.Current()), s.value.1, old(route.Pending()), old(route.Named()));
          && r == (match o.result case Success(b) => Success((s.value.0, b)) case Failure(e) => Failure(e))
          && route.Pending() == o.pending && route.Named() == o.named
      ensures var s := Select(order, parts, helpOptions);
        s.Success? ==> forall m :: m in targets && m != s.value.0 ==>
          targets[m].Pending() == old(targets[m].Pending()) && targets[m].Named() == old(targets[m].Named())
    {
      var c := Select(order, parts, helpOptions);
      if c.Failure? {
        return Failure(c.error);
      }
      var (name, rest) := c.value;
      var b := Dispatch(name, rest);
      OthersKept(name);
      if b.Failure? {
        return Failure(b.error);
      }
      return Success((name, b.value));
    }
  }

  /** Appending a name not yet present keeps the names distinct. */
  lemma DistinctAppend(s: seq<string>, x: string)
    requires Distinct(s) && x !in s
    ensures Distinct(s + [x])
  {
    assert forall i, j :: 0 <= i < j < |s + [x]| ==> (s + [x])[i] != (s + [x])[j] by {
      forall i, j | 0 <= i < j < |s + [x]|
        ensures (s + [x])[i] != (s + [x])[j]
      {
        if j == |s| {
          assert (s + [x])[i] == s[i];
        }
      }
    }
  }
}
