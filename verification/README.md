# A verified model of the golang-http request router

This project models the request router of the Go package `router`
(`router/path_parameters.go`, `router/router.go`, `router/filters.go`) in
Dafny and proves properties of it.

- **Path matcher.** `shiftPart`, `parseVariable` and the `MatchPath` loop.
  The loop is a method proved against `MatchSpec`, a recursive function
  that follows the same branches. `MatchSpec` is then described without the
  loop: the pattern's parts up to the first `**` must each accept the token
  in the same position; variables bind non-empty tokens, and a later
  duplicate wins; the matched path is the joined tokens, or the whole path
  after `**`.
- **Go library semantics the matcher depends on.** `strings.Index`,
  `strings.Replace(s, p, "", 1)` (removes the *first* occurrence of `p`,
  wherever it is), `strings.Split` (`""` splits into `[""]`),
  `strings.Join` and `strconv.Atoi`.
- **The request's parameter map.** It is a `ParamMap` object that
  `JoinStringParameters` updates in place (or creates when none is
  attached). `ReadParameters`, `ReadIntParameter` and `ReadStringParameter`
  read it.
- **The router.** `Router` is a class whose fields `registrations` and
  `handler` are changed by `Register`, `Filter` and `Handle`. The ghost
  function `Model()` maps a router to a value tree (`RouteTree`).
  `handle` is the method `HandleRequest`, proved against the recursive
  function `Dispatch` on that tree. `Dispatch` states the loop order, the
  early stop, the own-handler rule and how the parameter map is shared.
- **Filters.** `All`, `Method`, `Get`, `Put`, `Delete`, `Patch` and `Post`
  are predicates on the request method.
- **The repository's own tests** (`router/router_test.go`) are restated as
  lemmas. The router of `TestRouting` is built by calling the modelled
  operations, and its seven requests are answered by `ServeHTTP` on that
  router.

A request is `(method, path)`. Handlers are opaque ids (`HandlerId`). The
result of `handle` is an `Outcome`: whether the request was handled, which
handler ran, and which bindings that handler saw.

Behaviour that follows the code as written:
- Below the root the parameter map is one object shared by every
  registration tried after the first match. Bindings made by a branch that
  did not handle the request stay in the map and are seen by later
  siblings. At the root no map is attached yet, so each root registration
  starts from a new map. The model reproduces both behaviours
  (`Scenarios.SiblingSeesFailedBranchBinding`).
- The matched path is not always a prefix of the path: pattern `/a/`
  matches path `/a` with matched path `/a/` (`PathParameters.NotAPrefix`).
  The prefix property is proved only under its guard
  (`PathParameters.MatchedIsPrefix`).

## Model

| member | source | states |
|---|---|---|
| GoStrings.IndexOf | router/path_parameters.go:113 | strings.Index for '/': -1 exactly when no '/' occurs, otherwise the position of the first '/' |
| GoStrings.Index | router/router.go:24 | strings.Index for a substring: -1 or a position where it occurs, and it occurs at no earlier position |
| GoStrings.RemoveFirst | router/router.go:24 | strings.Replace(s, p, "", 1): `s` unchanged when `p` does not occur, otherwise `s` with the first occurrence of `p` cut out |
| GoStrings.RemoveFirstPrefix | router/router.go:24 | when the prefix is a leading part of the path, the replacement strips exactly that leading part |
| GoStrings.RemoveFirstEmpty | router/router.go:24 | at the root (empty prefix) the remaining path is the whole path |
| GoStrings.Split | router/path_parameters.go:137 | strings.Split yields at least one piece and no piece contains '/' |
| GoStrings.JoinSplit | router/path_parameters.go:137 | joining the pieces of a split with '/' gives back the string |
| GoStrings.Join | router/path_parameters.go:161 | strings.Join with '/': n pieces give at least n - 1 characters; the separators themselves are stated by JoinCons, JoinAppend and JoinFirstPiece |
| GoStrings.JoinFirstPiece | router/path_parameters.go:161 | a join starts with its first piece, followed by '/' when more pieces come |
| GoStrings.SplitJoin | router/path_parameters.go:161 | splitting a join of slash-free pieces gives back the pieces |
| GoStrings.JoinAppend | router/path_parameters.go:161 | joining two non-empty lists of pieces puts exactly one '/' between their joins |
| GoStrings.SplitConcat | router/path_parameters.go:137 | the pieces of `a + "/" + b` are the pieces of `a` followed by those of `b` |
| GoStrings.JoinSplitPrefix | router/path_parameters.go:161 | a join of the first n pieces is a leading part of the string that ends at the end or just before a '/' |
| GoStrconv.Atoi | router/path_parameters.go:75 | strconv.Atoi gives a value only for a numeral (an optional '+' or '-', then one or more digits), and that value is the numeral's signed value within the 64-bit range; it fails on "", "-" and "+" |
| GoStrconv.AtoiNumeral | router/path_parameters.go:75 | every numeral whose value fits in 64 bits parses to exactly that value, so with Atoi's contract Atoi fails exactly on the other strings |
| GoStrconv.FormatNat | router/path_parameters.go:75 | a non-empty digit string whose decimal value is `n` |
| GoStrconv.AtoiItoa | router/path_parameters.go:75 | Atoi reads back every 64-bit integer written in decimal |
| Filters.Accepts | router/router.go:32 | the call registration.filter(r): the filters that let a request through are exactly All() and the filter on the request's own method |
| Filters.All | router/filters.go:7-11 | accepts every request |
| Filters.Method | router/filters.go:33-38 | accepts exactly the requests whose method equals `m` (case-sensitive) |
| Filters.Get | router/filters.go:13-15 | is Method("GET"): accepts exactly GET requests |
| Filters.Put | router/filters.go:17-19 | is Method("PUT"): accepts exactly PUT requests |
| Filters.Delete | router/filters.go:21-23 | is Method("DELETE"): accepts exactly DELETE requests |
| Filters.Patch | router/filters.go:25-27 | is Method("PATCH"): accepts exactly PATCH requests |
| Filters.Post | router/filters.go:29-31 | is Method("POST"): accepts exactly POST requests |
| Filters.AcceptsDependsOnMethodOnly | router/filters.go:35-37 | a filter's answer depends only on the request method |
| Filters.MethodFiltersExclusive | router/filters.go:35-37 | two method filters for different methods never both accept a request |
| Filters.ConvenienceFiltersExclusive | router/filters.go:13-31 | the five convenience filters accept pairwise disjoint sets of requests |
| PathParameters.ShiftPart | router/path_parameters.go:110-118 | always succeeds; ("", "") on ""; before and after the first '/' (token + "/" + rest == path) when there is one; (path, "") otherwise; the token never holds a '/' |
| PathParameters.ShiftPartCuts | router/path_parameters.go:113-114 | the cut is at the first '/' of the path |
| PathParameters.ParseVariable | router/path_parameters.go:120-127 | a variable exactly when the part is longer than 1, starts with '{' and ends with '}', and then the name is the text between the braces; otherwise (false, "") |
| PathParameters.VariablePart | router/path_parameters.go:120-127 | `{name}` names the variable `name` |
| PathParameters.MatchParts | router/path_parameters.go:137-161 | the loop from a given part on: when the bindings gathered so far hold no empty value, neither do the bindings it returns (a variable is bound only to a non-empty token) |
| PathParameters.MatchSpec | router/path_parameters.go:129-162 | what MatchPath returns: no key is ever bound to the empty string, on success or failure |
| PathParameters.MatchPath | router/path_parameters.go:129-162 | the loop returns what MatchSpec (the same walk, written recursively) returns, including the early returns for "**", an empty variable token and a literal mismatch |
| PathParameters.Tokens | router/path_parameters.go:143-146 | the tokens of repeated shifts, one per part |
| PathParameters.TokenAt | router/path_parameters.go:143-146 | the k-th token is the k-th piece of strings.Split, and "" once the pieces are used up |
| PathParameters.TokensArePieces | router/path_parameters.go:143-146 | while the path has pieces left, the tokens are its leading pieces |
| PathParameters.WildcardAt | router/path_parameters.go:139-141 | the position of the first "**" part, or the number of parts when there is none |
| PathParameters.MatchPartsMeaning | router/path_parameters.go:137-161 | at every turn of the loop: success exactly when every part before the first "**" accepts its token; bindings as Bind; matched path the whole path after a "**" and otherwise the tokens joined after those already gathered; "" on failure |
| PathParameters.MatchPathMeaning | router/path_parameters.go:129-162 | the same for a whole call: up to the first "**" every literal equals its token and every variable gets a non-empty token; the bindings are Bind over those parts; the matched path is the whole path after "**" and the joined tokens otherwise; "" on failure |
| PathParameters.BindMeaning | router/path_parameters.go:147-151 | the bindings hold one key per variable part besides the keys already there, each key holds the token of the last part naming it, and other keys keep their values |
| PathParameters.MatchPathBindings | router/path_parameters.go:147-151 | a successful match binds exactly the variables before the first "**", each to the token of the last part that names it |
| PathParameters.MatchPathParams | router/path_parameters.go:147-153 | success or not, only variable names are bound and never to ""; a pattern without variables binds nothing |
| PathParameters.VariableNeedsValue | router/path_parameters.go:149-153 | a variable facing an empty token makes the match fail with matched path "" |
| PathParameters.LiteralMustEqual | router/path_parameters.go:155-156 | a literal facing a different token makes the match fail with matched path "" |
| PathParameters.MatchedIsPrefix | router/path_parameters.go:158-161 | without "**" and with enough path pieces, the matched path is a leading part of the path ending at its end or at a '/' (the unconsumed rest is allowed) |
| PathParameters.MatchLeadingPieces | router/path_parameters.go:137-161 | a "**"-free pattern against its number of pieces plus any rest after a '/': matches exactly when every part accepts its piece; then the matched path is those pieces joined and the bindings are one per variable |
| PathParameters.WildcardIgnoresRest | router/path_parameters.go:139-141 | pattern parts after the first "**" are never looked at |
| PathParameters.EmptyPatternMatch | router/path_parameters.go:137 | the empty pattern (the one Filter registers) matches exactly a path that is empty or starts with '/', consuming "" and binding nothing |
| PathParameters.CatchAllPatternMatch | router/path_parameters.go:139-141 | "/**" matches exactly a path that is empty or starts with '/', reports the whole path as matched and binds nothing |
| PathParameters.NotAPrefix | router/path_parameters.go:143-161 | "/a/" matches "/a" with matched path "/a/", which is not a prefix of the path |
| PathParameters.Merged | router/path_parameters.go:103-105 | every new key holds its new value, every other stored key keeps its value, nothing else is added |
| PathParameters.JoinStringParameters | router/path_parameters.go:95-108 | updates the attached map in place and returns that same object, or returns a new map when none is attached; its contents become Merged(old contents, params) |
| PathParameters.ReadParameters | router/path_parameters.go:20-27 | the attached map, or an empty map when none is attached |
| PathParameters.ReadIntParameter | router/path_parameters.go:70-80 | (true, n) exactly when the name is bound and its value parses as the integer n; (false, 0) otherwise |
| PathParameters.ReadStringParameter | router/path_parameters.go:82-93 | true exactly when the name is bound and its value is valid; the value returned is the bound value, or "" when missing |
| Dispatching.TryRoute | router/router.go:93-104 | one turn of the loop: a map created for a child's request (none attached) never reaches the caller |
| Dispatching.TryRouteNeedsMatch | router/router.go:95 | a registration that does not match leaves the request unhandled and the map as it was |
| Dispatching.DispatchFrom | router/router.go:92-106 | the loop from registration i on: past the last registration nothing is handled and the map is untouched; an unattached map stays unattached |
| Dispatching.DispatchFromNeedsMatch | router/router.go:92-106 | a request the loop handled was handed on by some registration, from i on, that matched it |
| Dispatching.Dispatch | router/router.go:89-116 | handle: when the loop did not handle the request but the node did, the prefix is the whole path and the node's own handler ran; an unattached map stays unattached |
| Dispatching.HandledOnlyThroughMatch | router/router.go:89-116 | a handled request was handed on by a matching registration or handled by the node's own handler on the exact path |
| Dispatching.RegistrationMatch | router/router.go:22-38 | matches exactly when the path match on the path after the prefix succeeds and the filter accepts; then it is that path match, otherwise (false, "", empty) |
| Dispatching.DispatchConsistent | router/router.go:89-116 | handled exactly when some handler ran, that handler belongs to the tree, and an unhandled request reports nothing else |
| Dispatching.DispatchFromConcat | router/router.go:92-106 | registrations are tried in declaration order: a list followed by more is the first list and, only if nothing handled the request, the rest from the map state left behind |
| Dispatching.LaterRoutesNotTried | router/router.go:101-103 | once a child handled the request, registrations declared after it are not tried |
| Dispatching.OwnHandlerNeedsExactPath | router/router.go:108-115 | when the prefix is not the whole path, the node's own handler is never consulted |
| Dispatching.OwnHandlerOnExactPath | router/router.go:108-115 | when no child handled the request and the prefix is the whole path, the own handler runs exactly when it is set and sees the map as left by the loop |
| Dispatching.DispatchStore | router/router.go:95-100 | an unattached map stays unattached for the caller; an attached map only gains keys; the handler that runs sees every key that was attached |
| Dispatching.TryRouteOnMatch | router/router.go:95-104 | a matching registration hands the request to its child at prefix + matched path, with the bindings merged into the request's map |
| Dispatching.LeafDispatch | router/router.go:108-115 | a router without registrations handles a request exactly when the prefix is the whole path and it has a handler |
| Dispatching.HandlerSeesRouteBindings | router/router.go:100 | a handler reached through a registration sees every name that registration's pattern bound (a deeper pattern may rebind the name to another value) |
| Dispatching.CatchAllFires | router/router.go:95-104 | a "/**" registration whose child only holds a handler fires that handler for every request its filter accepts, at a prefix ending at the path's end or before a '/'; the handler sees the attached map unchanged (a new empty map when none is attached) |
| Routing.Matches | router/router.go:22-38 | the method returns exactly RegistrationMatch: path first, then filter, and (false, "", empty) on failure |
| Routing.Router.EmptyRouter | router/router.go:49-54 | no registrations and no handler; a one-node tree |
| Routing.Router.Register | router/router.go:56-65 | appends exactly one registration (pattern, All(), configured child) at the end, leaves the earlier ones and the handler as they were, and returns the same router; a tree stays a tree when the child is a tree sharing no router with it, as the new router Go allocates at line 57 always is |
| Routing.Router.Filter | router/router.go:75-83 | appends one registration with pattern "" and the filter, leading to a new empty router, and returns that new child rather than the parent; the child is a tree and a tree stays a tree |
| Routing.Router.Append | router/router.go:59-63 | the append Register and Filter share: the registration goes at the end, the earlier ones and the handler stay, the tree gains exactly that route, the hierarchy stays acyclic, and a tree (no router under two registrations, see Tree) stays a tree when the new child is a tree that shares no router with it |
| Routing.Router.ChildrenDistinct | router/router.go:57-63 | in a tree two registrations never lead to the same router, nor one into the other's subtree, because every registration gets a new child |
| Routing.Router.Handle | router/router.go:67-69 | replaces the handler with the given one (None for a nil handler, which clears it) and leaves the registrations, and whether the hierarchy is a tree, untouched |
| Routing.Router.HandleRequest | router/router.go:89-116 | the outcome and the final content of the attached map are those of Dispatch on the router's tree: the loop, then the own handler on the exact path |
| Routing.Router.TryRegistrations | router/router.go:92-106 | the loop of handle: its outcome and the final content of the attached map are those of DispatchFrom from the first registration |
| Routing.Router.TryRegistration | router/router.go:93-104 | one turn of the loop is TryRoute of that registration |
| Routing.Router.ServeHTTP | router/router.go:85-87 | handling from the root with an empty prefix and no map attached |
| Scenarios.ShiftLeadingSlash | router/router_test.go:28 | shiftPart("/api/todo") == (true, "", "api/todo") |
| Scenarios.ShiftInnerSlash | router/router_test.go:29 | shiftPart("api/todo") == (true, "api", "todo") |
| Scenarios.ShiftLastPiece | router/router_test.go:30 | shiftPart("todo") == (true, "todo", "") |
| Scenarios.ShiftEmpty | router/router_test.go:31 | shiftPart("") == (true, "", "") |
| Scenarios.ShiftVariable | router/router_test.go:32 | shiftPart("{irgendwas}/hallo") == (true, "{irgendwas}", "hallo") |
| Scenarios.MatchesLiteral | router/router_test.go:35-50 | "/api/todo" matches itself, matched path "/api/todo", no bindings |
| Scenarios.MatchesVariable | router/router_test.go:52-71 | "/api/todo/{todoId}" matches "/api/todo/123-123" and binds only todoId to "123-123" |
| Scenarios.MatchesVariableNoValue | router/router_test.go:73-78 | "/api/todo/{todoId}" does not match "/api/todo/" |
| Scenarios.MatchesMissingTailingPart | router/router_test.go:87-94 | "/api/todo/" does not match "/api/" |
| Scenarios.MatchesVariableWithRest | router/router_test.go:96-114 | "/api/todo/{todoId}" matches "/api/todo/123-123/action" with matched path "/api/todo/123-123" and binds todoId |
| Scenarios.TodoIdMatch | router/router_test.go:97-113 | "/api/todo/{todoId}" against "/api/todo/<id>" plus any rest after a '/' matches "/api/todo/<id>" and binds the id |
| Scenarios.SiblingSeesFailedBranchBinding | router/router.go:95-103 | below the root, on "/<id>/…" the "/{todoId}" branch binds the id without handling the request and the catch-all sibling's handler sees todoId; at the root (no map attached) the catch-all sees an empty map |
| Scenarios.TodosExact | router/router_test.go:135-138 | todosRouter on its exact path: GET fires the list handler, anything else the 405 list handler |
| Scenarios.TodosItem | router/router_test.go:130-133 | todosRouter on "/<id>": GET fires the todo-id handler and anything else the 405 todo-id handler, with todoId bound; nothing below it is handled, and the id stays in the map |
| Scenarios.AppDispatch | router/router_test.go:140-142 | at the root, whatever "/api/todos" does not handle goes to the catch-all 404 handler |
| Scenarios.AppList | router/router_test.go:168-169 | "/api/todos": GET reaches the list handler, any other method the 405 list handler, no bindings |
| Scenarios.AppItem | router/router_test.go:170-175 | "/api/todos/<id>": GET reaches the todo-id handler, any other method the 405 todo-id handler, and the handler sees todoId = id |
| Scenarios.AppBelowItem | router/router_test.go:177 | anything below one todo is answered by the catch-all 404 handler with no bindings |
| Scenarios.AppOutsideTodos | router/router_test.go:178-179 | a path "/api/todos" does not match is answered by the catch-all 404 handler |
| Scenarios.RoutingGetList | router/router_test.go:168 | GET /api/todos: todo-list handler |
| Scenarios.RoutingPatchList | router/router_test.go:169 | PATCH /api/todos: 405 todo-list handler |
| Scenarios.RoutingGetItem | router/router_test.go:170-174 | GET /api/todos/123-456: todo-id handler, which sees todoId = "123-456" |
| Scenarios.RoutingPatchItem | router/router_test.go:175 | PATCH /api/todos/123-456: 405 todo-id handler |
| Scenarios.RoutingGetBelowItem | router/router_test.go:177 | GET /api/todos/123-456/not-existent: catch-all 404 handler |
| Scenarios.RoutingGetOutside | router/router_test.go:178-179 | GET /api/not-existent and GET /not-existent: catch-all 404 handler |
| Scenarios.BuildTestRouter | router/router_test.go:128-142 | the router built with EmptyRouter, Register, Filter and Handle, with the test's registrations in the test's order (each child is built before its parent), stands for the test's tree; the router built is a tree |
| Scenarios.ServeTestRequests | router/router_test.go:168-179 | ServeHTTP on that router answers the seven requests with the expected handlers, and only the todo-id handlers see a binding |

## Left out

- HTTP plumbing is not modelled: `http.ResponseWriter`, status codes and bodies, `log.Printf`, and `context.Context` with `r.WithContext`. The parameter map is an explicit `ParamMap` object passed along, or `null` when none is attached. Handlers are opaque ids. Running one is recorded in the `Outcome`, not executed.
- `HandleFunc` is the same assignment as `Handle` once handlers are opaque ids, so `Routing.Router.Handle` stands for both. `Handle(nil)` is `Handle(None)`, which clears the handler. `HandleFunc(nil)` stores a non-nil handler that panics when it is called; that panic is not modelled.
- `Routing.Router.Register` takes a child that is already configured. Go creates the child, passes it to a configuration closure and then appends it. Closures over routers are not modelled. The resulting tree is the same only for closures that configure nothing but the new child, as the repository's own tests do. Go runs the closure before the append, so a closure that registers on another router, such as a captured parent, puts that registration first; such closures are not modelled.
- `Routing.Router.Register` and `Routing.Router.Append` also accept a child that already sits under another registration. `Valid()` only excludes cycles, so the class can then share one router between two registrations, which Go never does because it allocates a new child each time. Such a router is not a `Tree()`, and no contract promises anything tree-specific about it.
- `Routing.Router.Filter` returns the new child, as Go does, but only `Handle` may follow on that child once it is registered. `Register` or `Filter` on a router that is already a child would add routers that its ancestors' footprints (`Repr`) do not hold, so the ancestors would no longer be `Valid()`, and `HandleRequest` needs `Valid()`. Trees such as `r.Filter(Get()).Register("/{id}", …)` are therefore not built through the class. `Dispatching.Dispatch` still covers them as `RouteTree` values, and `Routing.Router.Register` accepts a child configured in any way before it is registered.
- Filters are the closures `All()` and `Method(m)` only. An arbitrary user-written `RequestFilter` is not modelled.
- `MatchingParamter`, `MD5HashParameter` and `UUIDParameter` use the `regexp` library and are not part of this model. `PathParameters.ReadStringParameter` takes the validation as a predicate argument.
- `PathParameters.ReadIntParameter` and `PathParameters.ReadStringParameter` require an attached map. Go's type assertion on the missing context value panics when none is attached (router/path_parameters.go:71 and :84), and that panic is not modelled.
- The `nil != subrouter` check in `handle` is not modelled. Every registration made through the modelled operations has a child.
- `MatchPath`'s `!success` branch is not modelled because `shiftPart` always reports success. `PathParameters.ShiftPart` proves this.
- Go strings are byte sequences. The model uses character sequences, which gives the same results for the ASCII paths and patterns used here.
- Go distinguishes a nil map from an empty one (`MatchPath` returns `nil` on a literal mismatch). Both are the empty map here.
- `GoStrconv.Atoi` does not model Go's error values (syntax versus range error). Both are `None`.
- `GoStrconv.Atoi` fixes Go's `int` at 64 bits. On 32-bit targets Go's `int` is 32 bits and `strconv.Atoi` rejects values outside ±2³¹; that platform is not modelled.
- httputils/send_response.go, httputils/errors.go and router/default_handlers.go are not part of this model.
