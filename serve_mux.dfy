/**
 * The handler an `http.Server` dispatches to, as far as the two HttpPxy
 * variants set it: the proxy's own ServeHTTP, Go's default ServeMux with
 * nothing registered, or a ServeMux holding some patterns routed to the
 * proxy.
 */
module ServeMuxes {
  import opened Text

  datatype Handler = DefaultMux | Proxy | Mux(proxyPatterns: set<string>)

  /** A ServeMux pattern ending in '/' matches every path below it; any other pattern matches itself only. */
  predicate PatternMatches(pattern: string, path: string)
  {
    pattern == path || (pattern != [] && pattern[|pattern| - 1] == '/' && HasPrefix(path, pattern))
  }

  /** Whether a request for `path` reaches the proxy's ServeHTTP. */
  predicate Reaches(h: Handler, path: string)
  {
    match h
    case DefaultMux => false
    case Proxy => true
    case Mux(ps) => exists p :: p in ps && PatternMatches(p, path)
  }

  /** A mux with "/" routed to the proxy would serve every path; an empty mux serves none. */
  lemma MuxRouting(path: string)
    requires HasPrefix(path, "/")
    ensures Reaches(Mux({"/"}), path)
    ensures !Reaches(Mux({}), path) && !Reaches(DefaultMux, path) && Reaches(Proxy, path)
  {
    assert PatternMatches("/", path);
  }
}
