/** Request filters (router/filters.go): stateless predicates on a request
    that gate whether a registration applies. */
module Filters {
  import opened Requests

  /** The filters the router offers: accept everything, or accept one HTTP
      method. */
  datatype Filter = AcceptAll | OnMethod(name: string)

  /** Whether `f` lets `req` through: the filters that do are exactly
      All() and the filter on the request's own method. */
  predicate Accepts(f: Filter, req: Request): (b: bool)
    ensures b <==> f == AcceptAll || f == OnMethod(req.httpMethod)
  {
    match f
    case AcceptAll => true
    case OnMethod(name) => req.httpMethod == name
  }

  /** All() accepts every request. */
  function All(): (f: Filter)
    ensures forall req :: Accepts(f, req)
  {
    AcceptAll
  }

  /** Method(m) accepts exactly the requests whose method is `m`, compared
      case-sensitively and character by character. */
  function Method(m: string): (f: Filter)
    ensures forall req :: Accepts(f, req) <==> req.httpMethod == m
  {
    OnMethod(m)
  }

  function Get(): (f: Filter)
    ensures f == Method("GET")
    ensures forall req :: Accepts(f, req) <==> req.httpMethod == "GET"
  {
    Method("GET")
  }

  function Put(): (f: Filter)
    ensures f == Method("PUT")
    ensures forall req :: Accepts(f, req) <==> req.httpMethod == "PUT"
  {
    Method("PUT")
  }

  function Delete(): (f: Filter)
    ensures f == Method("DELETE")
    ensures forall req :: Accepts(f, req) <==> req.httpMethod == "DELETE"
  {
    Method("DELETE")
  }

  function Patch(): (f: Filter)
    ensures f == Method("PATCH")
    ensures forall req :: Accepts(f, req) <==> req.httpMethod == "PATCH"
  {
    Method("PATCH")
  }

  function Post(): (f: Filter)
    ensures f == Method("POST")
    ensures forall req :: Accepts(f, req) <==> req.httpMethod == "POST"
  {
    Method("POST")
  }

  /** A filter's answer depends on the request's method only. */
  lemma AcceptsDependsOnMethodOnly(f: Filter, a: Request, b: Request)
    requires a.httpMethod == b.httpMethod
    ensures Accepts(f, a) == Accepts(f, b)
  {
  }

  /** Two method filters for different methods never both accept a request. */
  lemma MethodFiltersExclusive(m1: string, m2: string, req: Request)
    requires m1 != m2
    ensures !(Accepts(Method(m1), req) && Accepts(Method(m2), req))
  {
  }

  /** The five convenience filters accept pairwise disjoint sets of requests. */
  lemma ConvenienceFiltersExclusive(req: Request)
    ensures var fs := [Get(), Put(), Delete(), Patch(), Post()];
            forall i, j :: 0 <= i < j < |fs| ==> !(Accepts(fs[i], req) && Accepts(fs[j], req))
  {
    var fs := [Get(), Put(), Delete(), Patch(), Post()];
    var names := ["GET", "PUT", "DELETE", "PATCH", "POST"];
    forall i, j | 0 <= i < j < |fs| ensures !(Accepts(fs[i], req) && Accepts(fs[j], req)) {
      assert fs[i] == OnMethod(names[i]) && fs[j] == OnMethod(names[j]);
      assert names[i] != names[j];
    }
  }
}
