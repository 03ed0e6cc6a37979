/** The router tree as a value and the meaning of router.handle on it
    (router/router.go). The class Router in module Routing is proved to
    behave as described here. */
module Dispatching {
  import opened Requests
  import opened GoStrings
  import opened Filters
  import opened PathParameters

  /** A registration: filter, pattern and the child router it leads to. */
  datatype Route = Route(filter: Filter, pattern: string, child: RouteTree)

  /** A router node: its registrations in declaration order and its own
      handler, if one is set. */
  datatype RouteTree = RouteTree(routes: seq<Route>, handler: Option<HandlerId>)

  /** What handling a request produced: whether it was handled, which
      handler ran and the bindings that handler's request carried. */
  datatype Outcome = Outcome(handled: bool, fired: Option<HandlerId>, seen: Params)

  const NotHandled := Outcome(false, None, map[])

  /** An outcome together with the content of the parameter map attached to
      the request at this level afterwards (None: no map attached). */
  datatype Step = Step(out: Outcome, store: Option<Params>)

  /** RouterRegistration.matches: the remaining path is the request path
      with the first occurrence of `prefix` removed; the registration
      matches when its pattern matches that and then its filter accepts. */
  function RegistrationMatch(filter: Filter, pattern: string, prefix: string, req: Request): (r: Match)
    ensures var m := MatchSpec(pattern, RemoveFirst(req.path, prefix));
            && (r.ok <==> m.ok && Accepts(filter, req))
            && (r.ok ==> r == m)
            && (!r.ok ==> r == Match(false, "", map[]))
  {
    var m := MatchSpec(pattern, RemoveFirst(req.path, prefix));
    if !m.ok then Match(false, "", map[])
    else if !Accepts(filter, req) then Match(false, "", map[])
    else m
  }

  /** One turn of handle's loop: when the registration matches, merge its
      bindings into the request's map and hand the request to the child
      with the matched path appended to the prefix. A map created by the
      merge belongs to the child's request only; an attached map is shared
      and keeps what the child did to it. */
  function TryRoute(route: Route, prefix: string, req: Request, store: Option<Params>): (r: Step)
    ensures store.None? ==> r.store.None?
    decreases route, 2
  {
    var m := RegistrationMatch(route.filter, route.pattern, prefix, req);
    if !m.ok then Step(NotHandled, store)
    else
      var sub := Dispatch(route.child, prefix + m.matched, req, Some(Merged(store, m.params)));
      var store' := if store.Some? then sub.store else store;
      if sub.out.handled then Step(sub.out, store') else Step(NotHandled, store')
  }

  /** handle's loop from registration `i` on: stop at the first
      registration whose child handles the request. */
  function DispatchFrom(t: RouteTree, i: nat, prefix: string, req: Request, store: Option<Params>): (r: Step)
    requires i <= |t.routes|
    ensures i == |t.routes| ==> r == Step(NotHandled, store)
    ensures store.None? ==> r.store.None?
    decreases t, 0, |t.routes| - i
  {
    if i == |t.routes| then Step(NotHandled, store)
    else
      var s := TryRoute(t.routes[i], prefix, req, store);
      if s.out.handled then s else DispatchFrom(t, i + 1, prefix, req, s.store)
  }

  /** router.handle(prefix, w, r): the registrations in order, then the
      node's own handler when nothing handled the request, the prefix is the
      whole request path and a handler is set. */
  function Dispatch(t: RouteTree, prefix: string, req: Request, store: Option<Params>): (r: Step)
    ensures r.out.handled && !DispatchFrom(t, 0, prefix, req, store).out.handled
            ==> prefix == req.path && r.out.fired == t.handler
    ensures store.None? ==> r.store.None?
    decreases t, 1
  {
    var loop := DispatchFrom(t, 0, prefix, req, store);
    if !loop.out.handled && prefix == req.path && t.handler.Some? then
      Step(Outcome(true, t.handler, if loop.store.Some? then loop.store.value else map[]), loop.store)
    else loop
  }

  /** The handlers a tree holds. */
  function Handlers(t: RouteTree): set<HandlerId>
    decreases t
  {
    (if t.handler.Some? then {t.handler.value} else {})
      + set i, h | 0 <= i < |t.routes| && h in Handlers(t.routes[i].child) :: h
  }

  // ---------------------------------------------------------------------
  // Properties
  // ---------------------------------------------------------------------

  /** The outcome is consistent: handled exactly when some handler ran, that
      handler belongs to the tree, and an unhandled request reports nothing
      else. */
  ghost predicate Consistent(out: Outcome, t: RouteTree)
  {
    && (out.handled <==> out.fired.Some?)
    && (out.handled ==> out.fired.value in Handlers(t))
    && (!out.handled ==> out == NotHandled)
  }

  lemma {:induction false} TryRouteConsistent(route: Route, prefix: string, req: Request, store: Option<Params>)
    ensures Consistent(TryRoute(route, prefix, req, store).out, route.child)
    decreases route, 2
  {
    var m := RegistrationMatch(route.filter, route.pattern, prefix, req);
    if m.ok {
      DispatchConsistent(route.child, prefix + m.matched, req, Some(Merged(store, m.params)));
    }
  }

  lemma {:induction false} DispatchFromConsistent(t: RouteTree, i: nat, prefix: string, req: Request, store: Option<Params>)
    requires i <= |t.routes|
    ensures Consistent(DispatchFrom(t, i, prefix, req, store).out, t)
    decreases t, 0, |t.routes| - i
  {
    if i < |t.routes| {
      var s := TryRoute(t.routes[i], prefix, req, store);
      TryRouteConsistent(t.routes[i], prefix, req, store);
      if s.out.handled {
        assert s.out.fired.value in Handlers(t.routes[i].child);
      } else {
        DispatchFromConsistent(t, i + 1, prefix, req, s.store);
      }
    }
  }

  /** Dispatch reports handled exactly when a handler of the tree ran. */
  lemma {:induction false} DispatchConsistent(t: RouteTree, prefix: string, req: Request, store: Option<Params>)
    ensures Consistent(Dispatch(t, prefix, req, store).out, t)
    decreases t, 1
  {
    DispatchFromConsistent(t, 0, prefix, req, store);
  }

  /** Only a registration that matches can pass the request on: one that
      does not match leaves both the request and the map as they were. */
  lemma TryRouteNeedsMatch(route: Route, prefix: string, req: Request, store: Option<Params>)
    requires !RegistrationMatch(route.filter, route.pattern, prefix, req).ok
    ensures TryRoute(route, prefix, req, store) == Step(NotHandled, store)
  {
  }

  /** A request the loop handled was handed on by a registration that
      matched it. */
  lemma {:induction false} DispatchFromNeedsMatch(t: RouteTree, i: nat, prefix: string, req: Request, store: Option<Params>)
    requires i <= |t.routes|
    requires DispatchFrom(t, i, prefix, req, store).out.handled
    ensures exists j :: i <= j < |t.routes| && RegistrationMatch(t.routes[j].filter, t.routes[j].pattern, prefix, req).ok
    decreases |t.routes| - i
  {
    var s := TryRoute(t.routes[i], prefix, req, store);
    if s.out.handled {
      assert RegistrationMatch(t.routes[i].filter, t.routes[i].pattern, prefix, req).ok;
    } else {
      DispatchFromNeedsMatch(t, i + 1, prefix, req, s.store);
    }
  }

  /** A handled request was handed on by a matching registration, or it
      was handled by the node's own handler on the exact path. */
  lemma HandledOnlyThroughMatch(t: RouteTree, prefix: string, req: Request, store: Option<Params>)
    requires Dispatch(t, prefix, req, store).out.handled
    ensures || (exists j :: 0 <= j < |t.routes| && RegistrationMatch(t.routes[j].filter, t.routes[j].pattern, prefix, req).ok)
            || (prefix == req.path && Dispatch(t, prefix, req, store).out.fired == t.handler)
  {
    if DispatchFrom(t, 0, prefix, req, store).out.handled {
      DispatchFromNeedsMatch(t, 0, prefix, req, store);
    }
  }

  /** Registrations are tried strictly in declaration order: handling a
      list of registrations followed by more is handling the first list and,
      only if nothing handled the request, going on with the rest from the
      map state the first list left behind. */
  lemma DispatchFromConcat(first: seq<Route>, rest: seq<Route>, handler: Option<HandlerId>, i: nat,
                           prefix: string, req: Request, store: Option<Params>)
    requires i <= |first|
    ensures var a := DispatchFrom(RouteTree(first, handler), i, prefix, req, store);
            DispatchFrom(RouteTree(first + rest, handler), i, prefix, req, store)
              == if a.out.handled then a else DispatchFrom(RouteTree(rest, handler), 0, prefix, req, a.store)
  {
    ConcatLawHolds(first, rest, handler, i, prefix, req, store);
  }

  /** The statement of DispatchFromConcat, named for its induction. */
  ghost predicate ConcatLaw(first: seq<Route>, rest: seq<Route>, handler: Option<HandlerId>, i: nat,
                            prefix: string, req: Request, store: Option<Params>)
    requires i <= |first|
  {
    var a := DispatchFrom(RouteTree(first, handler), i, prefix, req, store);
    DispatchFrom(RouteTree(first + rest, handler), i, prefix, req, store)
      == if a.out.handled then a else DispatchFrom(RouteTree(rest, handler), 0, prefix, req, a.store)
  }

  lemma {:induction false} ConcatLawHolds(first: seq<Route>, rest: seq<Route>, handler: Option<HandlerId>, i: nat,
                                          prefix: string, req: Request, store: Option<Params>)
    requires i <= |first|
    ensures ConcatLaw(first, rest, handler, i, prefix, req, store)
    decreases |first| - i
  {
    if i == |first| {
      DispatchFromShift(first, rest, handler, 0, prefix, req, store);
    } else {
      var s := TryRoute(first[i], prefix, req, store);
      if !s.out.handled {
        ConcatLawHolds(first, rest, handler, i + 1, prefix, req, s.store);
      }
      ConcatLawStep(first, rest, handler, i, prefix, req, store, s);
    }
  }

  /** One turn: the registration `i` is the same in both lists. */
  lemma ConcatLawStep(first: seq<Route>, rest: seq<Route>, handler: Option<HandlerId>, i: nat,
                      prefix: string, req: Request, store: Option<Params>, s: Step)
    requires i < |first| && s == TryRoute(first[i], prefix, req, store)
    requires !s.out.handled ==> ConcatLaw(first, rest, handler, i + 1, prefix, req, s.store)
    ensures ConcatLaw(first, rest, handler, i, prefix, req, store)
  {
    var t, whole := RouteTree(first, handler), RouteTree(first + rest, handler);
    assert whole.routes[i] == first[i] && t.routes[i] == first[i];
    DispatchFromUnfold(t, i, prefix, req, store);
    DispatchFromUnfold(whole, i, prefix, req, store);
  }

  /** One turn of the loop. */
  lemma DispatchFromUnfold(t: RouteTree, i: nat, prefix: string, req: Request, store: Option<Params>)
    requires i < |t.routes|
    ensures var s := TryRoute(t.routes[i], prefix, req, store);
            DispatchFrom(t, i, prefix, req, store) == if s.out.handled then s else DispatchFrom(t, i + 1, prefix, req, s.store)
  {
  }

  lemma {:induction false} DispatchFromShift(first: seq<Route>, rest: seq<Route>, handler: Option<HandlerId>, j: nat,
                                             prefix: string, req: Request, store: Option<Params>)
    requires j <= |rest|
    ensures DispatchFrom(RouteTree(first + rest, handler), |first| + j, prefix, req, store)
         == DispatchFrom(RouteTree(rest, handler), j, prefix, req, store)
    decreases |rest| - j
  {
    if j < |rest| {
      assert (first + rest)[|first| + j] == rest[j];
      var s := TryRoute(rest[j], prefix, req, store);
      if !s.out.handled {
        DispatchFromShift(first, rest, handler, j + 1, prefix, req, s.store);
      }
    }
  }

  /** Once a registration's child handled the request, the registrations
      declared after it are never tried: appending more changes nothing. */
  lemma LaterRoutesNotTried(first: seq<Route>, rest: seq<Route>, handler: Option<HandlerId>,
                            prefix: string, req: Request, store: Option<Params>)
    requires DispatchFrom(RouteTree(first, handler), 0, prefix, req, store).out.handled
    ensures Dispatch(RouteTree(first + rest, handler), prefix, req, store)
         == Dispatch(RouteTree(first, handler), prefix, req, store)
  {
    DispatchFromConcat(first, rest, handler, 0, prefix, req, store);
  }

  /** When the prefix is not the whole request path, the node's own handler
      is never consulted: the result is that of the registrations alone. */
  lemma OwnHandlerNeedsExactPath(routes: seq<Route>, handler: Option<HandlerId>,
                                 prefix: string, req: Request, store: Option<Params>)
    requires prefix != req.path
    ensures Dispatch(RouteTree(routes, handler), prefix, req, store)
         == Dispatch(RouteTree(routes, None), prefix, req, store)
    ensures Dispatch(RouteTree(routes, handler), prefix, req, store)
         == DispatchFrom(RouteTree(routes, handler), 0, prefix, req, store)
  {
    DispatchFromSameRoutes(routes, handler, None, 0, prefix, req, store);
  }

  /** handle's loop does not look at the node's own handler. */
  lemma {:induction false} DispatchFromSameRoutes(routes: seq<Route>, h1: Option<HandlerId>, h2: Option<HandlerId>, i: nat,
                                                  prefix: string, req: Request, store: Option<Params>)
    requires i <= |routes|
    ensures DispatchFrom(RouteTree(routes, h1), i, prefix, req, store)
         == DispatchFrom(RouteTree(routes, h2), i, prefix, req, store)
    decreases |routes| - i
  {
    if i < |routes| {
      var s := TryRoute(routes[i], prefix, req, store);
      if !s.out.handled {
        DispatchFromSameRoutes(routes, h1, h2, i + 1, prefix, req, s.store);
      }
    }
  }

  /** When no registration handled the request and the prefix is the whole
      path, the node's own handler runs if there is one and sees the
      request's map as the registrations left it. */
  lemma OwnHandlerOnExactPath(t: RouteTree, req: Request, store: Option<Params>)
    requires !DispatchFrom(t, 0, req.path, req, store).out.handled
    ensures var loop := DispatchFrom(t, 0, req.path, req, store);
            var d := Dispatch(t, req.path, req, store);
            && (d.out.handled <==> t.handler.Some?)
            && (d.out.handled ==> d.out.fired == t.handler)
            && (d.out.handled && loop.store.Some? ==> d.out.seen == loop.store.value)
            && (loop.store.None? ==> d.out.seen == map[])
  {
    DispatchFromConsistent(t, 0, req.path, req, store);
  }

  /** How the attached map evolves: a map that was not attached stays
      unattached for the caller (what the children merged is theirs alone);
      an attached map keeps every key it had, and whichever handler runs
      sees at least those keys. */
  ghost predicate StoreLaw(store: Option<Params>, step: Step)
  {
    && (store.None? ==> step.store.None?)
    && (store.Some? ==> step.store.Some? && store.value.Keys <= step.store.value.Keys)
    && (store.Some? && step.out.handled ==> store.value.Keys <= step.out.seen.Keys)
  }

  lemma {:induction false} TryRouteStore(route: Route, prefix: string, req: Request, store: Option<Params>)
    ensures StoreLaw(store, TryRoute(route, prefix, req, store))
    decreases route, 2
  {
    var m := RegistrationMatch(route.filter, route.pattern, prefix, req);
    if m.ok {
      DispatchStore(route.child, prefix + m.matched, req, Some(Merged(store, m.params)));
    }
  }

  lemma {:induction false} DispatchFromStore(t: RouteTree, i: nat, prefix: string, req: Request, store: Option<Params>)
    requires i <= |t.routes|
    ensures StoreLaw(store, DispatchFrom(t, i, prefix, req, store))
    decreases t, 0, |t.routes| - i
  {
    if i < |t.routes| {
      var s := TryRoute(t.routes[i], prefix, req, store);
      TryRouteStore(t.routes[i], prefix, req, store);
      if !s.out.handled {
        DispatchFromStore(t, i + 1, prefix, req, s.store);
      }
    }
  }

  /** The merge only ever adds to the request's map, and whichever handler
      runs sees every binding that was attached when handling began. */
  lemma {:induction false} DispatchStore(t: RouteTree, prefix: string, req: Request, store: Option<Params>)
    ensures StoreLaw(store, Dispatch(t, prefix, req, store))
    decreases t, 1
  {
    DispatchFromStore(t, 0, prefix, req, store);
  }

  /** A registration that matches hands the request to its child at the
      extended prefix, with the bindings merged into the request's map. */
  lemma TryRouteOnMatch(route: Route, prefix: string, req: Request, store: Option<Params>,
                        matched: string, params: Params, below: string, merged: Params)
    requires RegistrationMatch(route.filter, route.pattern, prefix, req) == Match(true, matched, params)
    requires below == prefix + matched && merged == Merged(store, params)
    ensures var sub := Dispatch(route.child, below, req, Some(merged));
            TryRoute(route, prefix, req, store)
              == Step(if sub.out.handled then sub.out else NotHandled, if store.Some? then sub.store else store)
  {
  }

  /** A router without registrations handles a request exactly when the
      prefix is the whole path and it has a handler; the handler sees the
      attached map (or an empty one). */
  lemma LeafDispatch(handler: Option<HandlerId>, prefix: string, req: Request, store: Option<Params>)
    ensures Dispatch(RouteTree([], handler), prefix, req, store)
         == if prefix == req.path && handler.Some?
            then Step(Outcome(true, handler, if store.Some? then store.value else map[]), store)
            else Step(NotHandled, store)
  {
  }

  /** A handler reached through a registration sees every binding that
      registration's pattern made. */
  lemma HandlerSeesRouteBindings(route: Route, prefix: string, req: Request, store: Option<Params>)
    requires TryRoute(route, prefix, req, store).out.handled
    ensures RegistrationMatch(route.filter, route.pattern, prefix, req).params.Keys
            <= TryRoute(route, prefix, req, store).out.seen.Keys
  {
    var m := RegistrationMatch(route.filter, route.pattern, prefix, req);
    DispatchStore(route.child, prefix + m.matched, req, Some(Merged(store, m.params)));
  }

  /** A catch-all registration (pattern slash-star-star) whose child only holds handler `h` fires `h` for
      every request the filter accepts, provided the prefix is a leading
      part of the path that ends at the path's end or before a '/': the
      wildcard hands the whole remaining path to the child, which then sits
      at the full request path. The handler sees the attached map as it is
      (a new empty one when none is attached), and the map is unchanged. */
  lemma CatchAllFires(filter: Filter, h: HandlerId, prefix: string, req: Request, store: Option<Params>)
    requires Accepts(filter, req)
    requires prefix <= req.path
    requires |prefix| == |req.path| || req.path[|prefix|] == '/'
    ensures var s := TryRoute(Route(filter, "/**", RouteTree([], Some(h))), prefix, req, store);
            && s.out == Outcome(true, Some(h), if store.Some? then store.value else map[])
            && s.store == store
  {
    var remaining := req.path[|prefix|..];
    var route := Route(filter, "/**", RouteTree([], Some(h)));
    var merged := Merged(store, map[]);
    CatchAllMatch(filter, prefix, req);
    PrefixAndRest(prefix, req.path);
    TryRouteOnMatch(route, prefix, req, store, remaining, map[], req.path, merged);
    LeafDispatch(Some(h), req.path, req, Some(merged));
    MergedNothing(store);
  }

  /** Merging no bindings: the attached map as it is, or a new empty one. */
  lemma MergedNothing(store: Option<Params>)
    ensures Merged(store, map[]) == if store.Some? then store.value else map[]
  {
  }

  /** The catch-all pattern matches the whole rest of the path after the
      prefix, binding nothing. */
  lemma CatchAllMatch(filter: Filter, prefix: string, req: Request)
    requires Accepts(filter, req)
    requires prefix <= req.path
    requires |prefix| == |req.path| || req.path[|prefix|] == '/'
    ensures RegistrationMatch(filter, "/**", prefix, req) == Match(true, req.path[|prefix|..], map[])
  {
    RemoveFirstPrefix(req.path, prefix);
    CatchAllPatternMatch(req.path[|prefix|..]);
  }

  /** A leading part of a path followed by the rest is the path. */
  lemma PrefixAndRest(prefix: string, path: string)
    requires prefix <= path
    ensures prefix + path[|prefix|..] == path
  {
  }
}
