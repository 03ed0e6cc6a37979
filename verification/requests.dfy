/** Values shared by every part of the router: the request as the router sees
    it, opaque handler identities and the parameter map. */
module Requests {

  datatype Option<T> = None | Some(value: T)

  /** A handler is opaque to the router; it is named by an identity. */
  type HandlerId = nat

  /** Path-variable name to bound value (Go's ParameterMap). */
  type Params = map<string, string>

  /** The two request attributes the router consults: the HTTP method and the
      URL path. */
  datatype Request = Request(httpMethod: string, path: string)
}
