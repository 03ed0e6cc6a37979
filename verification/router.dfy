/** The router object of router/router.go: a node that owns an ordered list
    of registrations and an optional handler, built up by Register, Filter
    and Handle and then asked to handle requests. */
module Routing {
  import opened Requests
  import opened Filters
  import opened PathParameters
  import opened Dispatching

  /** RouterRegistration: filter, pattern and child router. */
  datatype Registration = Registration(filter: Filter, path: string, router: Router)

  /** RouterRegistration.matches. */
  method Matches(registration: Registration, prefix: string, req: Request)
    returns (ok: bool, matchedPath: string, params: Params)
    ensures Match(ok, matchedPath, params) == RegistrationMatch(registration.filter, registration.path, prefix, req)
  {
    var remainingPath := GoStrings.RemoveFirst(req.path, prefix);
    var pathMatch, matched, parameterMap := MatchPath(registration.path, remainingPath);
    if !pathMatch {
      return false, "", map[];
    }
    if !Accepts(registration.filter, req) {
      return false, "", map[];
    }
    return true, matched, parameterMap;
  }

  class Router {
    var registrations: seq<Registration>
    var handler: Option<HandlerId>
    /** This router and every router below it. */
    ghost var Repr: set<Router>

    /** The routers below form an acyclic hierarchy: no router is its own
        descendant. It does not depend on any handler, so setting a handler
        anywhere keeps every ancestor valid. */
    ghost predicate Valid()
      reads this`registrations, this`Repr, Repr`registrations, Repr`Repr
      decreases Repr
    {
      && this in Repr
      && forall i :: 0 <= i < |registrations| ==>
           var child := registrations[i].router;
           && child in Repr && child.Repr <= Repr && this !in child.Repr
           && child.Valid()
    }

    /** The hierarchy is a tree: besides being acyclic, the children of
        different registrations share no router, here and below, so every
        router below has exactly one parent. Go guarantees this by
        allocating a new child for every registration. */
    ghost predicate Tree()
      reads this`registrations, this`Repr, Repr`registrations, Repr`Repr
      requires Valid()
      decreases Repr
    {
      && (forall i, j :: 0 <= i < j < |registrations| ==>
            registrations[i].router.Repr !! registrations[j].router.Repr)
      && (forall i :: 0 <= i < |registrations| ==> registrations[i].router.Tree())
    }

    /** In a tree two registrations never lead to the same router, nor one
        into the other's subtree. */
    lemma ChildrenDistinct(i: nat, j: nat)
      requires Valid() && Tree() && i < j < |registrations|
      ensures registrations[i].router != registrations[j].router
      ensures registrations[i].router !in registrations[j].router.Repr
    {
      assert registrations[i].router.Valid();
    }

    /** The tree this router stands for. */
    ghost function Model(): (t: RouteTree)
      reads this, Repr
      requires Valid()
      ensures t.handler == handler && |t.routes| == |registrations|
      decreases Repr, 1
    {
      RouteTree(Routes(0), handler)
    }

    /** The trees of the registrations from `i` on. */
    ghost function Routes(i: nat): (rs: seq<Route>)
      reads this, Repr
      requires Valid() && i <= |registrations|
      ensures |rs| == |registrations| - i
      decreases Repr, 0, |registrations| - i
    {
      if i == |registrations| then []
      else
        var registration := registrations[i];
        [Route(registration.filter, registration.path, registration.router.Model())] + Routes(i + 1)
    }

    /** Registration `j` stands for route `j` of the tree. */
    lemma ModelAt(j: nat)
      requires Valid() && j < |registrations|
      ensures Model().routes[j]
           == Route(registrations[j].filter, registrations[j].path, registrations[j].router.Model())
    {
      RoutesAt(0, j);
    }

    lemma {:induction false} RoutesAt(i: nat, j: nat)
      requires Valid() && i <= j < |registrations|
      ensures Routes(i)[j - i]
           == Route(registrations[j].filter, registrations[j].path, registrations[j].router.Model())
      decreases j - i
    {
      if i < j {
        RoutesAt(i + 1, j);
      }
    }

    /** EmptyRouter: no registrations and no handler. */
    constructor EmptyRouter()
      ensures Valid() && Tree() && Repr == {this}
      ensures registrations == [] && handler == None
      ensures Model() == RouteTree([], None)
    {
      registrations := [];
      handler := None;
      Repr := {this};
    }

    /** Register: appends one registration with filter All() for `path`,
        leading to `child`, which the caller has configured; returns this
        router, so that registrations can be chained. */
    method Register(path: string, child: Router) returns (r: Router)
      requires Valid() && child.Valid() && this !in child.Repr
      modifies this`registrations, this`Repr
      ensures r == this && Valid()
      ensures registrations == old(registrations) + [Registration(All(), path, child)]
      ensures Repr == old(Repr) + child.Repr
      ensures Model() == RouteTree(old(Model()).routes + [Route(All(), path, child.Model())], handler)
      ensures old(Tree()) && child.Tree() && child.Repr !! old(Repr) ==> Tree()
    {
      Append(Registration(All(), path, child));
      r := this;
    }

    /** Filter: appends one registration with the empty pattern and `filter`,
        leading to a new empty router, and returns that new router (not this
        one) for the caller to configure. */
    method Filter(filter: Filters.Filter) returns (child: Router)
      requires Valid()
      modifies this`registrations, this`Repr
      ensures fresh(child) && child.Valid() && child.Repr == {child}
      ensures child.registrations == [] && child.handler == None
      ensures Valid()
      ensures registrations == old(registrations) + [Registration(filter, "", child)]
      ensures Repr == old(Repr) + {child}
      ensures Model() == RouteTree(old(Model()).routes + [Route(filter, "", RouteTree([], None))], handler)
      ensures child.Tree() && (old(Tree()) ==> Tree())
    {
      ghost var before := Model();
      child := new Router.EmptyRouter();
      assert Valid() && Model() == before;
      Append(Registration(filter, "", child));
    }

    /** The append both Register and Filter perform. */
    method Append(registration: Registration)
      requires Valid() && registration.router.Valid() && this !in registration.router.Repr
      modifies this`registrations, this`Repr
      ensures Valid()
      ensures registrations == old(registrations) + [registration]
      ensures Repr == old(Repr) + registration.router.Repr
      ensures Model() == RouteTree(old(Model()).routes
                                   + [Route(registration.filter, registration.path, registration.router.Model())], handler)
      ensures old(Tree()) && registration.router.Tree() && registration.router.Repr !! old(Repr) ==> Tree()
    {
      ghost var before := Model();
      forall j | 0 <= j < |registrations|
        ensures before.routes[j]
             == Route(registrations[j].filter, registrations[j].path, registrations[j].router.Model())
      {
        ModelAt(j);
      }
      registrations := registrations + [registration];
      Repr := Repr + registration.router.Repr;
      forall j | 0 <= j < |registrations|
        ensures registrations[j].router in Repr && registrations[j].router.Repr <= Repr
        ensures this !in registrations[j].router.Repr && registrations[j].router.Valid()
      {
      }
      assert Valid();
      forall j | 0 <= j < |registrations|
        ensures Model().routes[j] == (before.routes
                                      + [Route(registration.filter, registration.path, registration.router.Model())])[j]
      {
        ModelAt(j);
      }
    }

    /** Handle (and HandleFunc): sets this router's handler, replacing any
        earlier one; None stands for a nil handler, which clears it. The
        registrations stay as they are. */
    method Handle(h: Option<HandlerId>)
      requires Valid()
      modifies this`handler
      ensures handler == h
      ensures Valid()
      ensures Model() == RouteTree(old(Model()).routes, h)
      ensures Tree() == old(Tree())
    {
      ghost var before := Model();
      forall j | 0 <= j < |registrations|
        ensures before.routes[j]
             == Route(registrations[j].filter, registrations[j].path, registrations[j].router.Model())
      {
        ModelAt(j);
      }
      handler := h;
      forall j | 0 <= j < |registrations|
        ensures Model().routes[j] == before.routes[j]
      {
        ModelAt(j);
      }
    }

    /** router.handle(prefix, w, r): tries the registrations in order, gives
        the request to the child of each one that matches, with the matched
        path appended to the prefix and its bindings merged into the
        request's map, and stops at the first child that handled it; if none
        did, runs this router's own handler when the prefix is the whole
        request path. The result says whether the request was handled, which
        handler ran and what bindings it saw; the attached map ends as the
        dispatch left it. */
    method HandleRequest(prefix: string, req: Request, attached: ParamMap?) returns (out: Outcome)
      requires Valid()
      modifies attached
      decreases Repr, 2
      ensures var d := Dispatch(Model(), prefix, req, old(StoreOf(attached)));
              out == d.out && StoreOf(attached) == d.store
    {
      out := TryRegistrations(prefix, req, attached);
      if !out.handled && prefix == req.path && handler.Some? {
        out := Outcome(true, handler, ReadParameters(attached));
      }
    }

    /** The loop of handle: the registrations in order, stopping at the first
        whose child handled the request. */
    method TryRegistrations(prefix: string, req: Request, attached: ParamMap?) returns (out: Outcome)
      requires Valid()
      modifies attached
      decreases Repr, 1
      ensures var s := DispatchFrom(Model(), 0, prefix, req, old(StoreOf(attached)));
              out == s.out && StoreOf(attached) == s.store
    {
      ghost var tree := Model();
      ghost var loop := DispatchFrom(tree, 0, prefix, req, StoreOf(attached));
      var i := 0;
      while i < |registrations|
        invariant 0 <= i <= |registrations|
        invariant Valid() && Model() == tree
        invariant loop == DispatchFrom(tree, i, prefix, req, StoreOf(attached))
        decreases |registrations| - i
      {
        ghost var before := StoreOf(attached);
        DispatchFromUnfold(tree, i, prefix, req, before);
        var sub := TryRegistration(i, prefix, req, attached);
        if sub.handled {
          assert loop.out == sub && loop.store == StoreOf(attached);
          return sub;
        }
        i := i + 1;
      }
      return NotHandled;
    }

    /** One turn of handle's loop: when registration `i` matches, its child
        handles the request with the matched path appended to the prefix and
        the bindings merged into the attached map (a new map at the root). */
    method TryRegistration(i: nat, prefix: string, req: Request, attached: ParamMap?) returns (out: Outcome)
      requires Valid() && i < |registrations|
      modifies attached
      decreases Repr, 0
      ensures var s := TryRoute(old(Model()).routes[i], prefix, req, old(StoreOf(attached)));
              out == s.out && StoreOf(attached) == s.store
    {
      var registration := registrations[i];
      ghost var route := Model().routes[i];
      ModelAt(i);
      var matches, matchedPath, parameters := Matches(registration, prefix, req);
      if !matches {
        return NotHandled;
      }
      ghost var store := StoreOf(attached);
      var joined := JoinStringParameters(attached, parameters);
      ghost var merged := StoreOf(joined);
      assert merged == Some(Merged(store, parameters));
      assert registration.router.Model() == route.child;
      out := registration.router.HandleRequest(prefix + matchedPath, req, joined);
      ghost var sub := Dispatch(route.child, prefix + matchedPath, req, merged);
      assert out == sub.out && StoreOf(joined) == sub.store;
      DispatchConsistent(route.child, prefix + matchedPath, req, merged);
      assert StoreOf(attached) == if store.Some? then sub.store else store;
    }

    /** ServeHTTP: handles the request from the root, with an empty prefix
        and no map attached. */
    method ServeHTTP(req: Request) returns (out: Outcome)
      requires Valid()
      ensures out == Dispatch(Model(), "", req, None).out
    {
      out := HandleRequest("", req, null);
    }
  }
}
