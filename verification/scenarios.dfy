/** The behaviour the repository's own tests (router/router_test.go) expect,
    derived from the model. */
module Scenarios {
  import opened Requests
  import opened GoStrings
  import opened Filters
  import opened PathParameters
  import opened Dispatching
  import opened Routing

  // ---------------------------------------------------------------------
  // shiftPart on the tests' inputs (TestShift)
  // ---------------------------------------------------------------------

  lemma ShiftLeadingSlash()
    ensures ShiftPart("/api/todo") == (true, "", "api/todo")
  {
    ShiftPartCuts("/api/todo", 0);
    assert "/api/todo"[1..] == "api/todo";
  }

  lemma ShiftInnerSlash()
    ensures ShiftPart("api/todo") == (true, "api", "todo")
  {
    ShiftPartCuts("api/todo", 3);
    assert "api/todo"[..3] == "api" && "api/todo"[4..] == "todo";
  }

  lemma ShiftLastPiece()
    ensures ShiftPart("todo") == (true, "todo", "")
  {
  }

  lemma ShiftEmpty()
    ensures ShiftPart("") == (true, "", "")
  {
  }

  lemma ShiftVariable()
    ensures ShiftPart("{irgendwas}/hallo") == (true, "{irgendwas}", "hallo")
  {
    ShiftPartCuts("{irgendwas}/hallo", 11);
    assert "{irgendwas}/hallo"[..11] == "{irgendwas}" && "{irgendwas}/hallo"[12..] == "hallo";
  }

  // ---------------------------------------------------------------------
  // MatchPath on the tests' inputs
  // ---------------------------------------------------------------------

  /** The parts of "/api/todo/{todoId}". */
  lemma TodoIdPattern()
    ensures Join(["", "api", "todo", "{todoId}"]) == "/api/todo/{todoId}"
    ensures forall i :: 0 <= i < 4 ==>
              NoSlash(["", "api", "todo", "{todoId}"][i]) && ["", "api", "todo", "{todoId}"][i] != "**"
  {
    TodoIdJoin();
    TodoIdParts();
  }

  lemma TodoIdJoin()
    ensures Join(["", "api", "todo", "{todoId}"]) == "/api/todo/{todoId}"
  {
    TodoIdPath("{todoId}");
  }

  lemma TodoIdParts()
    ensures forall i :: 0 <= i < 4 ==>
              NoSlash(["", "api", "todo", "{todoId}"][i]) && ["", "api", "todo", "{todoId}"][i] != "**"
  {
  }

  /** The four parts accept "", "api", "todo" and any non-empty id, and bind
      the id to todoId. */
  lemma TodoIdAccepts(id: string)
    requires id != ""
    ensures Agree(["", "api", "todo", "{todoId}"], ["", "api", "todo", id])
    ensures Bind(map[], ["", "api", "todo", "{todoId}"], ["", "api", "todo", id]) == map["todoId" := id]
  {
    VariablePart("todoId");
    assert "{" + "todoId" + "}" == "{todoId}";
    var parts := ["", "api", "todo", "{todoId}"];
    var tokens := ["", "api", "todo", id];
    assert !ParseVariable("").0 && !ParseVariable("api").0 && !ParseVariable("todo").0;
    assert parts[1..] == ["api", "todo", "{todoId}"] && tokens[1..] == ["api", "todo", id];
    assert parts[2..] == ["todo", "{todoId}"] && tokens[2..] == ["todo", id];
    assert parts[3..] == ["{todoId}"] && tokens[3..] == [id];
    calc {
      Bind(map[], parts, tokens);
      Bind(map[], parts[1..], tokens[1..]);
      Bind(map[], parts[2..], tokens[2..]);
      Bind(map[], parts[3..], tokens[3..]);
      Bind(map["todoId" := id], [], []);
    }
  }

  /** The parts of "/api/todo", which accept exactly themselves. */
  lemma TodoPattern()
    ensures Join(["", "api", "todo"]) == "/api/todo"
    ensures forall i :: 0 <= i < 3 ==> NoSlash(["", "api", "todo"][i]) && ["", "api", "todo"][i] != "**"
    ensures Agree(["", "api", "todo"], ["", "api", "todo"])
    ensures Bind(map[], ["", "api", "todo"], ["", "api", "todo"]) == map[]
  {
    var parts := ["", "api", "todo"];
    assert !ParseVariable("").0 && !ParseVariable("api").0 && !ParseVariable("todo").0;
    assert parts[1..] == ["api", "todo"] && parts[2..] == ["todo"];
  }

  /** A path of the form "/api/todo/<id>". */
  lemma TodoIdPath(id: string)
    ensures Join(["", "api", "todo", id]) == "/api/todo/" + id
  {
    var p := ["", "api", "todo", id];
    assert p[1..] == ["api", "todo", id] && p[2..] == ["todo", id] && p[3..] == [id];
    assert Join(["todo", id]) == "todo/" + id;
    assert Join(["api", "todo", id]) == "api/todo/" + id;
  }

  /** The pattern "/api/todo/{todoId}" against "/api/todo/<id>", possibly
      followed by more pieces: it matches "/api/todo/<id>" and binds todoId
      to the id. */
  lemma TodoIdMatch(id: string, rest: string)
    requires id != "" && NoSlash(id)
    requires rest == "" || rest[0] == '/'
    ensures MatchSpec("/api/todo/{todoId}", "/api/todo/" + id + rest)
         == Match(true, "/api/todo/" + id, map["todoId" := id])
  {
    var tokens := ["", "api", "todo", id];
    TodoIdPattern();
    TodoIdAccepts(id);
    TodoIdPath(id);
    MatchLeadingPieces("/api/todo/{todoId}", ["", "api", "todo", "{todoId}"], tokens, rest);
  }

  /** TestMatches: a literal pattern matches the same path, binding nothing. */
  lemma MatchesLiteral()
    ensures MatchSpec("/api/todo", "/api/todo") == Match(true, "/api/todo", map[])
  {
    TodoPattern();
    var parts := ["", "api", "todo"];
    MatchLeadingPieces("/api/todo", parts, parts, "");
    assert Join(parts) + "" == "/api/todo";
  }

  /** The id the tests use and the paths built from it. */
  lemma SampleId()
    ensures NoSlash("123-123")
    ensures "/api/todo/" + "123-123" + "" == "/api/todo/123-123"
    ensures "/api/todo/" + "123-123" + "/action" == "/api/todo/123-123/action"
  {
  }

  /** TestMatchesVariable: the variable binds the last piece. */
  lemma MatchesVariable()
    ensures MatchSpec("/api/todo/{todoId}", "/api/todo/123-123")
         == Match(true, "/api/todo/123-123", map["todoId" := "123-123"])
  {
    SampleId();
    TodoIdMatch("123-123", "");
  }

  /** TestMatchesVariableNoValue: an empty piece gives the variable no
      value, so the match fails. */
  lemma MatchesVariableNoValue()
    ensures !MatchSpec("/api/todo/{todoId}", "/api/todo/").ok
  {
    var parts := ["", "api", "todo", "{todoId}"];
    var tokens := ["", "api", "todo", ""];
    TodoIdPattern();
    VariablePart("todoId");
    assert "{" + "todoId" + "}" == "{todoId}";
    assert Join(tokens) + "" == "/api/todo/";
    MatchLeadingPieces("/api/todo/{todoId}", parts, tokens, "");
    assert !PartAccepts(parts[3], tokens[3]);
  }

  /** The pieces of "/api/todo/". */
  lemma TodoSlashPieces()
    ensures Split("/api/todo/") == ["", "api", "todo", ""]
  {
    assert Join(["", "api", "todo", ""]) == "/api/todo/";
    SplitJoin(["", "api", "todo", ""]);
  }

  /** The pieces of "/api/". */
  lemma ApiSlashPieces()
    ensures Split("/api/") == ["", "api", ""]
  {
    assert Join(["", "api", ""]) == "/api/";
    SplitJoin(["", "api", ""]);
  }

  /** TestMatchesVariableMissingTailingPart: a literal part past the end of
      the path meets the empty token and fails. */
  lemma MatchesMissingTailingPart()
    ensures !MatchSpec("/api/todo/", "/api/").ok
  {
    TodoSlashPieces();
    ApiSlashPieces();
    var parts := ["", "api", "todo", ""];
    assert WildcardAt(parts) == 4;
    TokenAt("/api/", 4, 2);
    assert PieceAt(Split("/api/"), 2) == "" && |parts[2]| != 0;
    LiteralMustEqual("/api/todo/", "/api/", 2);
  }

  /** TestMatchesVariableWithRest: pieces past the pattern are left over and
      are not part of the matched path. */
  lemma MatchesVariableWithRest()
    ensures MatchSpec("/api/todo/{todoId}", "/api/todo/123-123/action")
         == Match(true, "/api/todo/123-123", map["todoId" := "123-123"])
  {
    SampleId();
    TodoIdMatch("123-123", "/action");
  }

  // ---------------------------------------------------------------------
  // The router of TestRouting
  // ---------------------------------------------------------------------

  /** The handlers TestRouting installs, named after the body they write. */
  const TodoIdHandler: HandlerId := 1        // 200 "todo-id-handler"
  const TodoIdNotAllowed: HandlerId := 2     // 405 "405:todo-id"
  const TodoListHandler: HandlerId := 3      // 200 "todo-list-handler"
  const TodoListNotAllowed: HandlerId := 4   // 405 "405:todo-list"
  const CatchAllNotFound: HandlerId := 5     // 404 "404:catchAll global"

  /** todoRouter: GET goes to the todo-id handler, anything else to its own
      405 handler. */
  function TodoTree(): RouteTree
  {
    RouteTree([Route(Get(), "", RouteTree([], Some(TodoIdHandler)))], Some(TodoIdNotAllowed))
  }

  /** todosRouter: "/{todoId}" leads to todoRouter; GET goes to the list
      handler; anything else to its own 405 handler. */
  function TodosTree(): RouteTree
  {
    RouteTree([Route(All(), "/{todoId}", TodoTree()),
               Route(Get(), "", RouteTree([], Some(TodoListHandler)))],
              Some(TodoListNotAllowed))
  }

  /** The root: "/api/todos" leads to todosRouter, then the catch-all. */
  function AppTree(): RouteTree
  {
    RouteTree([Route(All(), "/api/todos", TodosTree()),
               Route(All(), "/**", RouteTree([], Some(CatchAllNotFound)))],
              None)
  }

  /** The Get-filtered registration with the empty pattern, on a remaining
      path that is empty or starts with '/': it matches exactly GET
      requests and consumes nothing. */
  lemma GetRegistration(prefix: string, rest: string, m: string)
    requires rest == "" || rest[0] == '/'
    ensures RegistrationMatch(Get(), "", prefix, Request(m, prefix + rest))
         == if m == "GET" then Match(true, "", map[]) else Match(false, "", map[])
  {
    RemoveFirstPrefix(prefix + rest, prefix);
    assert (prefix + rest)[|prefix|..] == rest;
    EmptyPatternMatch(rest);
  }

  /** todoRouter at prefix `prefix`: on the exact path GET fires the todo-id
      handler and anything else the 405 handler, both seeing the attached
      map; below it nothing is handled. */
  lemma TodoDispatch(m: string, prefix: string, rest: string, s: Params)
    requires rest == "" || rest[0] == '/'
    ensures Dispatch(TodoTree(), prefix, Request(m, prefix + rest), Some(s))
         == Step(if rest == "" then Outcome(true, Some(if m == "GET" then TodoIdHandler else TodoIdNotAllowed), s)
                 else NotHandled, Some(s))
  {
    var req := Request(m, prefix + rest);
    var route := TodoTree().routes[0];
    assert prefix == req.path <==> rest == "";
    GetRegistration(prefix, rest, m);
    if m == "GET" {
      MergedNothing(Some(s));
      assert prefix + "" == prefix;
      TryRouteOnMatch(route, prefix, req, Some(s), "", map[], prefix, s);
      LeafDispatch(Some(TodoIdHandler), prefix, req, Some(s));
    } else {
      TryRouteNeedsMatch(route, prefix, req, Some(s));
    }
    LastRoute(TodoTree(), 0, prefix, req, Some(s));
  }

  /** The parts of "/{todoId}". */
  lemma TodoIdPartPattern()
    ensures Join(["", "{todoId}"]) == "/{todoId}"
    ensures forall i :: 0 <= i < 2 ==> NoSlash(["", "{todoId}"][i]) && ["", "{todoId}"][i] != "**"
    ensures Split("/{todoId}") == ["", "{todoId}"]
    ensures ParseVariable("{todoId}") == (true, "todoId")
  {
    SplitJoin(["", "{todoId}"]);
    VariablePart("todoId");
    assert "{" + "todoId" + "}" == "{todoId}";
  }

  /** "/{todoId}" against "/<id>" followed by nothing or by more text after
      a '/': it matches exactly when the id is non-empty, consumes "/<id>"
      and binds the id to todoId. */
  lemma TodoIdPartMatch(id: string, rest: string)
    requires NoSlash(id)
    requires rest == "" || rest[0] == '/'
    ensures var r := MatchSpec("/{todoId}", "/" + id + rest);
            && (r.ok <==> id != "")
            && (r.ok ==> r.matched == "/" + id && r.params == map["todoId" := id])
  {
    var parts := ["", "{todoId}"];
    var tokens := ["", id];
    TodoIdPartPattern();
    TodoIdPartAccepts(id);
    assert Join(tokens) + rest == "/" + id + rest;
    MatchLeadingPieces("/{todoId}", parts, tokens, rest);
  }

  /** The parts of "/{todoId}" accept "" and the id exactly when the id is
      non-empty, and bind it to todoId. */
  lemma TodoIdPartAccepts(id: string)
    ensures Agree(["", "{todoId}"], ["", id]) <==> id != ""
    ensures Bind(map[], ["", "{todoId}"], ["", id]) == map["todoId" := id]
    ensures Join(["", id]) == "/" + id
  {
    var parts := ["", "{todoId}"];
    var tokens := ["", id];
    TodoIdPartPattern();
    assert !ParseVariable("").0;
    assert PartAccepts(parts[0], tokens[0]);
    assert parts[1..] == ["{todoId}"] && tokens[1..] == [id];
    assert Bind(map[], parts, tokens) == Bind(map[], parts[1..], tokens[1..]);
  }

  /** "/{todoId}" does not match the empty remaining path: its variable
      faces an exhausted path. */
  lemma TodoIdPartNeedsPiece()
    ensures !MatchSpec("/{todoId}", "").ok
  {
    TodoIdPartPattern();
    assert WildcardAt(["", "{todoId}"]) == 2;
    TokenAt("", 2, 1);
    VariableNeedsValue("/{todoId}", "", 1);
  }

  /** todosRouter on its exact path: GET fires the list handler, anything
      else the 405 list handler; the "/{todoId}" registration does not
      match, so nothing is added to the attached map. */
  lemma TodosExact(m: string, prefix: string, s: Params)
    ensures Dispatch(TodosTree(), prefix, Request(m, prefix), Some(s))
         == Step(Outcome(true, Some(if m == "GET" then TodoListHandler else TodoListNotAllowed), s), Some(s))
  {
    var req := Request(m, prefix);
    TodosItemMiss(m, prefix, s);
    SkipFirst(TodosTree(), prefix, req, Some(s));
    TodosListExact(m, prefix, s);
    LastRoute(TodosTree(), 1, prefix, req, Some(s));
  }

  /** On its exact path the "/{todoId}" registration of todosRouter does not
      match. */
  lemma TodosItemMiss(m: string, prefix: string, s: Params)
    ensures TryRoute(TodosTree().routes[0], prefix, Request(m, prefix), Some(s)) == Step(NotHandled, Some(s))
  {
    RemoveFirstPrefix(prefix, prefix);
    assert prefix[|prefix|..] == "";
    TodoIdPartNeedsPiece();
    assert !RegistrationMatch(All(), "/{todoId}", prefix, Request(m, prefix)).ok;
  }

  /** On its exact path the Get-filtered registration of todosRouter fires
      the list handler exactly for GET. */
  lemma TodosListExact(m: string, prefix: string, s: Params)
    ensures TryRoute(TodosTree().routes[1], prefix, Request(m, prefix), Some(s))
         == Step(if m == "GET" then Outcome(true, Some(TodoListHandler), s) else NotHandled, Some(s))
  {
    var req := Request(m, prefix);
    var route := TodosTree().routes[1];
    assert prefix + "" == prefix;
    GetRegistration(prefix, "", m);
    if m == "GET" {
      MergedNothing(Some(s));
      TryRouteOnMatch(route, prefix, req, Some(s), "", map[], prefix, s);
      LeafDispatch(Some(TodoListHandler), prefix, req, Some(s));
    }
  }

  /** A first registration that does not match passes the request, and the
      map, on to the next one. */
  lemma SkipFirst(t: RouteTree, prefix: string, req: Request, store: Option<Params>)
    requires |t.routes| >= 1 && TryRoute(t.routes[0], prefix, req, store) == Step(NotHandled, store)
    ensures DispatchFrom(t, 0, prefix, req, store) == DispatchFrom(t, 1, prefix, req, store)
  {
  }

  /** The last registration: its result if it handled the request, and
      otherwise nothing handled, with the map as it left it. */
  lemma LastRoute(t: RouteTree, i: nat, prefix: string, req: Request, store: Option<Params>)
    requires i + 1 == |t.routes|
    ensures var s := TryRoute(t.routes[i], prefix, req, store);
            DispatchFrom(t, i, prefix, req, store) == if s.out.handled then s else Step(NotHandled, s.store)
  {
    var s := TryRoute(t.routes[i], prefix, req, store);
    assert DispatchFrom(t, i + 1, prefix, req, s.store) == Step(NotHandled, s.store);
  }

  /** The first registration of todosRouter on "/<id>" plus `rest`: it
      matches, writes todoId into the attached map and passes the request
      to todoRouter. */
  lemma TodosFirstRoute(m: string, prefix: string, id: string, rest: string, s: Params)
    requires id != "" && NoSlash(id)
    requires rest == "" || rest[0] == '/'
    ensures TryRoute(Route(All(), "/{todoId}", TodoTree()), prefix, Request(m, prefix + "/" + id + rest), Some(s))
         == Step(if rest == "" then Outcome(true, Some(if m == "GET" then TodoIdHandler else TodoIdNotAllowed), s["todoId" := id])
                 else NotHandled, Some(s["todoId" := id]))
  {
    TodoIdRouteHandsOver(TodoTree(), m, prefix, id, rest, s);
    assert prefix + "/" + id + rest == (prefix + "/" + id) + rest;
    TodoDispatch(m, prefix + "/" + id, rest, s["todoId" := id]);
  }

  /** A "/{todoId}" registration hands "/<id>" plus `rest` to its child at
      prefix + "/<id>", with todoId merged into the attached map. */
  lemma TodoIdRouteHandsOver(child: RouteTree, m: string, prefix: string, id: string, rest: string, s: Params)
    requires id != "" && NoSlash(id)
    requires rest == "" || rest[0] == '/'
    ensures var req := Request(m, prefix + "/" + id + rest);
            var sub := Dispatch(child, prefix + "/" + id, req, Some(s["todoId" := id]));
            TryRoute(Route(All(), "/{todoId}", child), prefix, req, Some(s))
              == Step(if sub.out.handled then sub.out else NotHandled, sub.store)
  {
    var req := Request(m, prefix + "/" + id + rest);
    TodosFirstMatch(m, prefix, id, rest);
    MergedOne(s, "todoId", id);
    ConcatAssoc(prefix, "/", id);
    TryRouteOnMatch(Route(All(), "/{todoId}", child), prefix, req, Some(s),
                    "/" + id, map["todoId" := id], prefix + "/" + id, s["todoId" := id]);
  }

  /** Merging one binding into an attached map updates that key. */
  lemma MergedOne(s: Params, k: string, v: string)
    ensures Merged(Some(s), map[k := v]) == s[k := v]
  {
  }

  /** The match of the "/{todoId}" registration on "/<id>" plus `rest`. */
  lemma TodosFirstMatch(m: string, prefix: string, id: string, rest: string)
    requires id != "" && NoSlash(id)
    requires rest == "" || rest[0] == '/'
    ensures RegistrationMatch(All(), "/{todoId}", prefix, Request(m, prefix + "/" + id + rest))
         == Match(true, "/" + id, map["todoId" := id])
  {
    var tail := "/" + id + rest;
    SplitOff(prefix, "/", id, rest);
    RemoveFirstPrefix(prefix + tail, prefix);
    TodoIdPartMatch(id, rest);
  }

  /** A path built from a prefix and three more pieces, seen as the prefix
      and what follows it. */
  lemma SplitOff(prefix: string, a: string, b: string, c: string)
    ensures prefix + a + b + c == prefix + (a + b + c)
    ensures (prefix + (a + b + c))[|prefix|..] == a + b + c
  {
  }

  /** todosRouter below its exact path, on "/<id>" plus `rest`: the item
      request goes to todoRouter; anything deeper is not handled here. In
      both cases the id stays in the attached map. */
  lemma TodosItem(m: string, prefix: string, id: string, rest: string, s: Params)
    requires id != "" && NoSlash(id)
    requires rest == "" || rest[0] == '/'
    ensures Dispatch(TodosTree(), prefix, Request(m, prefix + "/" + id + rest), Some(s))
         == Step(if rest == "" then Outcome(true, Some(if m == "GET" then TodoIdHandler else TodoIdNotAllowed), s["todoId" := id])
                 else NotHandled, Some(s["todoId" := id]))
  {
    var path := prefix + "/" + id + rest;
    var tail := "/" + id + rest;
    assert path == prefix + tail;
    var req := Request(m, path);
    var s' := s["todoId" := id];
    TodosFirstRoute(m, prefix, id, rest, s);
    assert TodosTree().routes[0] == Route(All(), "/{todoId}", TodoTree());
    if rest != "" {
      TodosSecondRoute(m, prefix, tail, s');
    }
  }

  /** A node with "/{todoId}" leading to todoRouter, then a catch-all, and
      no handler of its own. */
  function SiblingTree(): RouteTree
  {
    RouteTree([Route(All(), "/{todoId}", TodoTree()),
               Route(All(), "/**", RouteTree([], Some(CatchAllNotFound)))],
              None)
  }

  /** Below the root the request's map is shared by the registrations: on
      "/<id>" followed by a deeper rest, "/{todoId}" matches and binds the
      id, todoRouter does not handle the request, and the catch-all
      sibling's handler still sees todoId. At the root no map is attached,
      so the catch-all sees an empty map instead. */
  lemma SiblingSeesFailedBranchBinding(m: string, prefix: string, id: string, rest: string, store: Option<Params>)
    requires id != "" && NoSlash(id)
    requires rest != "" && rest[0] == '/'
    ensures Dispatch(SiblingTree(), prefix, Request(m, prefix + "/" + id + rest), store).out
         == Outcome(true, Some(CatchAllNotFound), if store.Some? then store.value["todoId" := id] else map[])
  {
    var req := Request(m, prefix + "/" + id + rest);
    var t := SiblingTree();
    var after := if store.Some? then Some(store.value["todoId" := id]) else None;
    SiblingFirstRoute(m, prefix, id, rest, store);
    SplitOff(prefix, "/", id, rest);
    assert prefix <= req.path && req.path[|prefix|] == '/';
    CatchAllFires(All(), CatchAllNotFound, prefix, req, after);
    assert t.routes[1] == Route(All(), "/**", RouteTree([], Some(CatchAllNotFound)));
    LastRoute(t, 1, prefix, req, after);
  }

  /** The first registration of SiblingTree on "/<id>" plus a deeper rest:
      it matches, but todoRouter does not handle the request; an attached
      map keeps the binding. */
  lemma SiblingFirstRoute(m: string, prefix: string, id: string, rest: string, store: Option<Params>)
    requires id != "" && NoSlash(id)
    requires rest != "" && rest[0] == '/'
    ensures TryRoute(SiblingTree().routes[0], prefix, Request(m, prefix + "/" + id + rest), store)
         == Step(NotHandled, if store.Some? then Some(store.value["todoId" := id]) else None)
  {
    var req := Request(m, prefix + "/" + id + rest);
    var merged := Merged(store, map["todoId" := id]);
    TodosFirstMatch(m, prefix, id, rest);
    ConcatAssoc(prefix, "/", id);
    TryRouteOnMatch(Route(All(), "/{todoId}", TodoTree()), prefix, req, store,
                    "/" + id, map["todoId" := id], prefix + "/" + id, merged);
    assert prefix + "/" + id + rest == (prefix + "/" + id) + rest;
    TodoDispatch(m, prefix + "/" + id, rest, merged);
    if store.Some? {
      MergedOne(store.value, "todoId", id);
    }
  }

  /** The Get-filtered registration of todosRouter below its exact path: it
      may match, but its child only handles the exact path. */
  lemma TodosSecondRoute(m: string, prefix: string, tail: string, s: Params)
    requires tail != "" && tail[0] == '/'
    ensures TryRoute(TodosTree().routes[1], prefix, Request(m, prefix + tail), Some(s)) == Step(NotHandled, Some(s))
  {
    var req := Request(m, prefix + tail);
    GetRegistration(prefix, tail, m);
    assert prefix + "" == prefix && prefix != req.path;
    assert Merged(Some(s), map[]) == s;
    LeafDispatch(Some(TodoListHandler), prefix, req, Some(s));
  }

  /** The parts of "/api/todos", which accept exactly themselves. */
  lemma TodosPattern()
    ensures Join(["", "api", "todos"]) == "/api/todos"
    ensures forall i :: 0 <= i < 3 ==> NoSlash(["", "api", "todos"][i]) && ["", "api", "todos"][i] != "**"
    ensures Agree(["", "api", "todos"], ["", "api", "todos"])
    ensures Bind(map[], ["", "api", "todos"], ["", "api", "todos"]) == map[]
    ensures Split("/api/todos") == ["", "api", "todos"]
  {
    TodosJoin();
    TodosParts();
    TodosLiterals();
    TodosSplit();
  }

  lemma TodosSplit()
    ensures Split("/api/todos") == ["", "api", "todos"]
  {
    TodosJoin();
    TodosParts();
    SplitJoin(["", "api", "todos"]);
  }

  lemma TodosJoin()
    ensures Join(["", "api", "todos"]) == "/api/todos"
  {
  }

  lemma TodosParts()
    ensures forall i :: 0 <= i < 3 ==> NoSlash(["", "api", "todos"][i]) && ["", "api", "todos"][i] != "**"
  {
  }

  lemma TodosLiterals()
    ensures Agree(["", "api", "todos"], ["", "api", "todos"])
    ensures Bind(map[], ["", "api", "todos"], ["", "api", "todos"]) == map[]
  {
    var parts := ["", "api", "todos"];
    assert !ParseVariable("").0 && !ParseVariable("api").0 && !ParseVariable("todos").0;
    assert parts[1..] == ["api", "todos"] && parts[2..] == ["todos"];
  }

  /** "/api/todos" matches itself followed by nothing or by more text after
      a '/', consuming exactly "/api/todos" and binding nothing. */
  lemma ApiTodosMatch(rest: string)
    requires rest == "" || rest[0] == '/'
    ensures MatchSpec("/api/todos", "/api/todos" + rest) == Match(true, "/api/todos", map[])
  {
    TodosPattern();
    var parts := ["", "api", "todos"];
    MatchLeadingPieces("/api/todos", parts, parts, rest);
  }

  /** At the root (empty prefix, no map attached) the "/api/todos"
      registration hands "/api/todos" plus `rest` to its child at prefix
      "/api/todos" with a new empty map, and the root stays without a map. */
  lemma AppFirstHandsOver(child: RouteTree, m: string, rest: string)
    requires rest == "" || rest[0] == '/'
    ensures var req := Request(m, "/api/todos" + rest);
            var sub := Dispatch(child, "/api/todos", req, Some(map[]));
            TryRoute(Route(All(), "/api/todos", child), "", req, None)
              == Step(if sub.out.handled then sub.out else NotHandled, None)
  {
    var req := Request(m, "/api/todos" + rest);
    RemoveFirstEmpty(req.path);
    RemoveFirstEmpty("/api/todos");
    ApiTodosMatch(rest);
    assert Merged(None, map[]) == map[];
    TryRouteOnMatch(Route(All(), "/api/todos", child), "", req, None, "/api/todos", map[], "/api/todos", map[]);
  }

  /** At the root the catch-all registration fires the 404 handler for every
      path that is empty or starts with '/', with a new empty map. */
  lemma AppCatchAll(req: Request)
    requires req.path == "" || req.path[0] == '/'
    ensures TryRoute(Route(All(), "/**", RouteTree([], Some(CatchAllNotFound))), "", req, None)
         == Step(Outcome(true, Some(CatchAllNotFound), map[]), None)
  {
    RemoveFirstEmpty(req.path);
    CatchAllPatternMatch(req.path);
    assert Merged(None, map[]) == map[];
    TryRouteOnMatch(Route(All(), "/**", RouteTree([], Some(CatchAllNotFound))), "", req, None, req.path, map[], req.path, map[]);
    LeafDispatch(Some(CatchAllNotFound), req.path, req, Some(map[]));
  }

  /** The root router: whatever the "/api/todos" branch does not handle
      falls through to the catch-all 404 handler. */
  lemma AppDispatch(req: Request)
    requires req.path == "" || req.path[0] == '/'
    ensures var first := TryRoute(AppTree().routes[0], "", req, None);
            Dispatch(AppTree(), "", req, None).out
              == if first.out.handled then first.out else Outcome(true, Some(CatchAllNotFound), map[])
  {
    var catchAll := Route(All(), "/**", RouteTree([], Some(CatchAllNotFound)));
    AppCatchAll(req);
    FallThrough(AppTree().routes[0], catchAll, "", req, Outcome(true, Some(CatchAllNotFound), map[]));
  }

  /** A handler-less node with two registrations and no map attached: when
      the second one surely handles the request, the outcome is the first
      one's if it handled the request and the second one's otherwise. */
  lemma FallThrough(r0: Route, r1: Route, prefix: string, req: Request, done: Outcome)
    requires done.handled && TryRoute(r1, prefix, req, None) == Step(done, None)
    ensures var first := TryRoute(r0, prefix, req, None);
            Dispatch(RouteTree([r0, r1], None), prefix, req, None).out
              == if first.out.handled then first.out else done
  {
    var t := RouteTree([r0, r1], None);
    var first := TryRoute(r0, prefix, req, None);
    TryRouteStore(r0, prefix, req, None);
    assert t.routes[0] == r0 && t.routes[1] == r1;
    assert DispatchFrom(t, 2, prefix, req, None).out == NotHandled;
    assert DispatchFrom(t, 1, prefix, req, None).out == done;
  }

  /** Requests for the todo list: GET reaches the list handler, any other
      method the 405 list handler; no bindings. */
  lemma AppList(m: string)
    ensures Dispatch(AppTree(), "", Request(m, "/api/todos"), None).out
         == Outcome(true, Some(if m == "GET" then TodoListHandler else TodoListNotAllowed), map[])
  {
    var req := Request(m, "/api/todos");
    assert "/api/todos" + "" == "/api/todos";
    AppFirstHandsOver(TodosTree(), m, "");
    TodosExact(m, "/api/todos", map[]);
    AppDispatch(req);
  }

  /** Requests for one todo: GET reaches the todo-id handler, any other
      method the 405 todo-id handler, and the handler sees the id under
      todoId. */
  lemma AppItem(m: string, id: string)
    requires id != "" && NoSlash(id)
    ensures Dispatch(AppTree(), "", Request(m, "/api/todos/" + id), None).out
         == Outcome(true, Some(if m == "GET" then TodoIdHandler else TodoIdNotAllowed), map["todoId" := id])
  {
    var req := Request(m, "/api/todos/" + id);
    ItemPathExact(id);
    AppFirstHandsOver(TodosTree(), m, "/" + id);
    TodosItem(m, "/api/todos", id, "", map[]);
    AppDispatch(req);
  }

  /** Anything below one todo is handled by no router under "/api/todos"
      (its bindings stay in the map that branch created), so the catch-all
      404 handler answers, with a new empty map. */
  lemma AppBelowItem(m: string, id: string, rest: string)
    requires id != "" && NoSlash(id)
    requires rest != "" && rest[0] == '/'
    ensures Dispatch(AppTree(), "", Request(m, "/api/todos/" + id + rest), None).out
         == Outcome(true, Some(CatchAllNotFound), map[])
  {
    var req := Request(m, "/api/todos/" + id + rest);
    ItemPath(id, rest);
    AppFirstHandsOver(TodosTree(), m, "/" + id + rest);
    TodosItem(m, "/api/todos", id, rest, map[]);
    AppDispatch(req);
  }

  /** A path the "/api/todos" pattern does not match goes to the catch-all
      404 handler. */
  lemma AppOutsideTodos(m: string, path: string)
    requires path == "" || path[0] == '/'
    requires !MatchSpec("/api/todos", path).ok
    ensures Dispatch(AppTree(), "", Request(m, path), None).out == Outcome(true, Some(CatchAllNotFound), map[])
  {
    var req := Request(m, path);
    RemoveFirstEmpty(path);
    assert !RegistrationMatch(All(), "/api/todos", "", req).ok;
    AppDispatch(req);
  }

  /** The path of one todo, in the forms the lemmas above use. */
  lemma ItemPathExact(id: string)
    ensures "/api/todos/" + id == "/api/todos" + ("/" + id)
    ensures "/api/todos/" + id == "/api/todos" + "/" + id + ""
  {
  }

  /** The paths below one todo, in the forms the lemmas above use. */
  lemma ItemPath(id: string, rest: string)
    ensures "/api/todos/" + id + rest == "/api/todos" + ("/" + id + rest)
    ensures "/api/todos/" + id + rest == "/api/todos" + "/" + id + rest
  {
  }

  // TestRouting's requests, each with the handler that answers it

  /** The id and the paths TestRouting uses. */
  lemma RoutingPaths()
    ensures NoSlash("123-456") && "123-456" != ""
    ensures "/api/todos/" + "123-456" == "/api/todos/123-456"
    ensures "/api/todos/" + "123-456" + "/not-existent" == "/api/todos/123-456/not-existent"
    ensures "/not-existent"[0] == '/'
  {
  }

  /** The pieces of "/api/not-existent". */
  lemma ApiOtherPieces()
    ensures Split("/api/not-existent") == ["", "api", "not-existent"]
  {
    assert Join(["", "api", "not-existent"]) == "/api/not-existent";
    SplitJoin(["", "api", "not-existent"]);
  }

  /** The pieces of "/not-existent". */
  lemma OtherPieces()
    ensures Split("/not-existent") == ["", "not-existent"]
  {
    assert Join(["", "not-existent"]) == "/not-existent";
    SplitJoin(["", "not-existent"]);
  }

  /** "/api/todos" does not match a path whose i-th piece differs from the
      pattern's i-th part. */
  lemma TodosMismatch(path: string, i: nat)
    requires i < 3 && PieceAt(Split(path), i) != ["", "api", "todos"][i]
    ensures !MatchSpec("/api/todos", path).ok
  {
    TodosSplit();
    TodosParts();
    assert WildcardAt(["", "api", "todos"]) == 3;
    TokenAt(path, 3, i);
    LiteralMustEqual("/api/todos", path, i);
  }

  /** "/api/todos" does not match "/api/not-existent" (third piece). */
  lemma ApiOutsideTodos()
    ensures !MatchSpec("/api/todos", "/api/not-existent").ok
  {
    ApiOtherPieces();
    assert PieceAt(Split("/api/not-existent"), 2) == "not-existent";
    assert |"not-existent"| != |"todos"|;
    TodosMismatch("/api/not-existent", 2);
  }

  /** "/api/todos" does not match "/not-existent" (second piece). */
  lemma RootOutsideTodos()
    ensures !MatchSpec("/api/todos", "/not-existent").ok
  {
    OtherPieces();
    assert PieceAt(Split("/not-existent"), 1) == "not-existent";
    assert |"not-existent"| != |"api"|;
    TodosMismatch("/not-existent", 1);
  }

  /** GET /api/todos: 200 "todo-list-handler". */
  lemma RoutingGetList()
    ensures Dispatch(AppTree(), "", Request("GET", "/api/todos"), None).out
         == Outcome(true, Some(TodoListHandler), map[])
  {
    AppList("GET");
  }

  /** PATCH /api/todos: 405 "405:todo-list". */
  lemma RoutingPatchList()
    ensures Dispatch(AppTree(), "", Request("PATCH", "/api/todos"), None).out
         == Outcome(true, Some(TodoListNotAllowed), map[])
  {
    AppList("PATCH");
  }

  /** GET /api/todos/123-456: 200 "todo-id-handler", and the handler sees
      todoId bound to "123-456" (the echoed header). */
  lemma RoutingGetItem()
    ensures Dispatch(AppTree(), "", Request("GET", "/api/todos/123-456"), None).out
         == Outcome(true, Some(TodoIdHandler), map["todoId" := "123-456"])
  {
    RoutingPaths();
    AppItem("GET", "123-456");
  }

  /** PATCH /api/todos/123-456: 405 "405:todo-id". */
  lemma RoutingPatchItem()
    ensures Dispatch(AppTree(), "", Request("PATCH", "/api/todos/123-456"), None).out
         == Outcome(true, Some(TodoIdNotAllowed), map["todoId" := "123-456"])
  {
    RoutingPaths();
    AppItem("PATCH", "123-456");
  }

  /** GET /api/todos/123-456/not-existent: 404 "404:catchAll global". */
  lemma RoutingGetBelowItem()
    ensures Dispatch(AppTree(), "", Request("GET", "/api/todos/123-456/not-existent"), None).out
         == Outcome(true, Some(CatchAllNotFound), map[])
  {
    RoutingPaths();
    AppBelowItem("GET", "123-456", "/not-existent");
  }

  /** GET /api/not-existent and GET /not-existent: 404 "404:catchAll
      global". */
  lemma RoutingGetOutside()
    ensures Dispatch(AppTree(), "", Request("GET", "/api/not-existent"), None).out
         == Outcome(true, Some(CatchAllNotFound), map[])
    ensures Dispatch(AppTree(), "", Request("GET", "/not-existent"), None).out
         == Outcome(true, Some(CatchAllNotFound), map[])
  {
    ApiOutsideTodos();
    AppOutsideTodos("GET", "/api/not-existent");
    RootOutsideTodos();
    AppOutsideTodos("GET", "/not-existent");
  }

  /** TestRouting's router, built through the router's own operations with
      the test's registrations in the test's order (each child is built
      before it is registered); it stands for AppTree(). */
  method BuildTestRouter() returns (root: Router)
    ensures root.Valid() && root.Tree() && root.Model() == AppTree()
  {
    var todosRouter := BuildTodosRouter();
    ghost var todos := todosRouter.Repr;
    var catchAll := BuildCatchAllRouter();
    assert catchAll.Repr !! todos;
    root := new Router.EmptyRouter();
    var _ := root.Register("/api/todos", todosRouter);
    assert root.Model() == RouteTree([AppTree().routes[0]], None);
    assert root.Tree() && root.Repr == {root} + todos;
    var _ := root.Register("/**", catchAll);
    assert root.Model().routes == [AppTree().routes[0]] + [AppTree().routes[1]];
  }

  /** catchAll of TestRouting: only the 404 handler. */
  method BuildCatchAllRouter() returns (catchAll: Router)
    ensures fresh(catchAll.Repr)
    ensures catchAll.Valid() && catchAll.Tree() && catchAll.Model() == RouteTree([], Some(CatchAllNotFound))
  {
    catchAll := new Router.EmptyRouter();
    catchAll.Handle(Some(CatchAllNotFound));
  }

  /** TestRouting end to end: one router, built as the test builds it,
      answers the test's seven requests from the root with the handlers the
      test expects; only the todo-id handlers see a binding. */
  method ServeTestRequests() returns (outs: seq<Outcome>)
    ensures outs == [Outcome(true, Some(TodoListHandler), map[]),
                     Outcome(true, Some(TodoListNotAllowed), map[]),
                     Outcome(true, Some(TodoIdHandler), map["todoId" := "123-456"]),
                     Outcome(true, Some(TodoIdNotAllowed), map["todoId" := "123-456"]),
                     Outcome(true, Some(CatchAllNotFound), map[]),
                     Outcome(true, Some(CatchAllNotFound), map[]),
                     Outcome(true, Some(CatchAllNotFound), map[])]
  {
    var router := BuildTestRouter();
    var getList := ServeTest(router, Request("GET", "/api/todos"));
    assert getList == Outcome(true, Some(TodoListHandler), map[]) by { RoutingGetList(); }
    var patchList := ServeTest(router, Request("PATCH", "/api/todos"));
    assert patchList == Outcome(true, Some(TodoListNotAllowed), map[]) by { RoutingPatchList(); }
    var getItem := ServeTest(router, Request("GET", "/api/todos/123-456"));
    assert getItem == Outcome(true, Some(TodoIdHandler), map["todoId" := "123-456"]) by { RoutingGetItem(); }
    var patchItem := ServeTest(router, Request("PATCH", "/api/todos/123-456"));
    assert patchItem == Outcome(true, Some(TodoIdNotAllowed), map["todoId" := "123-456"]) by { RoutingPatchItem(); }
    var below := ServeTest(router, Request("GET", "/api/todos/123-456/not-existent"));
    assert below == Outcome(true, Some(CatchAllNotFound), map[]) by { RoutingGetBelowItem(); }
    var apiOther := ServeTest(router, Request("GET", "/api/not-existent"));
    var other := ServeTest(router, Request("GET", "/not-existent"));
    assert apiOther == other == Outcome(true, Some(CatchAllNotFound), map[]) by { RoutingGetOutside(); }
    outs := [getList, patchList, getItem, patchItem, below, apiOther, other];
  }

  /** ServeHTTP on TestRouting's router, which it leaves as it is. */
  method ServeTest(router: Router, req: Request) returns (out: Outcome)
    requires router.Valid() && router.Model() == AppTree()
    ensures router.Valid() && router.Model() == AppTree()
    ensures out == Dispatch(AppTree(), "", req, None).out
  {
    out := router.ServeHTTP(req);
  }

  /** todosRouter of TestRouting: "/{todoId}" leading to todoRouter, a Get
      filter leading to the list handler, and the 405 handler on the router
      itself. */
  method BuildTodosRouter() returns (todosRouter: Router)
    ensures fresh(todosRouter.Repr)
    ensures todosRouter.Valid() && todosRouter.Tree() && todosRouter.Model() == TodosTree()
  {
    var todoRouter := BuildTodoRouter();
    todosRouter := new Router.EmptyRouter();
    var _ := todosRouter.Register("/{todoId}", todoRouter);
    assert todosRouter.Model().routes == [TodosTree().routes[0]];
    ghost var registered := todosRouter.Repr;
    assert fresh(registered);
    OnGet(todosRouter, TodoListHandler);
    assert todosRouter.Model().routes == TodosTree().routes;
    assert fresh(todosRouter.Repr);
    todosRouter.Handle(Some(TodoListNotAllowed));
  }

  /** todoRouter of TestRouting: a Get filter leading to the todo-id
      handler, and the 405 handler on the router itself. */
  method BuildTodoRouter() returns (todoRouter: Router)
    ensures fresh(todoRouter.Repr)
    ensures todoRouter.Valid() && todoRouter.Tree() && todoRouter.Model() == TodoTree()
  {
    todoRouter := new Router.EmptyRouter();
    OnGet(todoRouter, TodoIdHandler);
    todoRouter.Handle(Some(TodoIdNotAllowed));
    assert todoRouter.Model().routes == TodoTree().routes;
  }

  /** router.Filter(Get()).Handle(h): a Get filter with the empty pattern,
      leading to a new router whose handler is `h`. */
  method OnGet(router: Router, h: HandlerId)
    requires router.Valid()
    modifies router`registrations, router`Repr
    ensures router.Valid() && fresh(router.Repr - old(router.Repr))
    ensures old(router.Tree()) ==> router.Tree()
    ensures router.Model() == RouteTree(old(router.Model()).routes + [Route(Get(), "", RouteTree([], Some(h)))], router.handler)
  {
    var child := router.Filter(Get());
    ghost var before := router.Model();
    forall j | 0 <= j < |router.registrations|
      ensures before.routes[j] == Route(router.registrations[j].filter, router.registrations[j].path,
                                        router.registrations[j].router.Model())
    {
      router.ModelAt(j);
    }
    child.Handle(Some(h));
    forall j | 0 <= j < |router.registrations|
      ensures router.Model().routes[j] == (if j + 1 < |router.registrations| then before.routes[j]
                                           else Route(Get(), "", RouteTree([], Some(h))))
    {
      router.ModelAt(j);
    }
  }
}
