/** The single-page-app fallback of the static resource handler
    (the `PathResourceResolver` in api/src/main/kotlin/com/itsz/app/config/WebConfig.kt). */
module WebConfig {

  import opened Wrappers
  import opened Text

  /** What the resolver returns: the requested file under `classpath:/public/`,
      or a class-path resource (the app shell). */
  datatype Resource = Requested(path: string) | ClassPath(path: string)

  const IndexHtml := "public/index.html"

  /** Paths that belong to the server, never to the client-side router. */
  const ReservedPrefixes: seq<string> := ["api/", "assets/", "swagger-ui/", "v3/api-docs/"]

  predicate HasReservedPrefix(path: string) {
    exists i :: 0 <= i < |ReservedPrefixes| && StartsWith(path, ReservedPrefixes[i])
  }

  /** The reserved-prefix test is the four `startsWith` tests of the source. */
  lemma ReservedPrefixTests(path: string)
    ensures HasReservedPrefix(path) <==>
      StartsWith(path, "api/") || StartsWith(path, "assets/")
      || StartsWith(path, "swagger-ui/") || StartsWith(path, "v3/api-docs/")
  {
    assert ReservedPrefixes[0] == "api/" && ReservedPrefixes[1] == "assets/";
    assert ReservedPrefixes[2] == "swagger-ui/" && ReservedPrefixes[3] == "v3/api-docs/";
  }

  /** A client-side route: no reserved prefix and no file extension. */
  predicate IsClientRoute(path: string) {
    !HasReservedPrefix(path) && '.' !in path
  }

  /** `getResource(resourcePath, location)`; `readable(p)` says whether the
      file at `p` under the location exists and is readable. `None` is `null`. */
  function GetResource(path: string, readable: string -> bool): (r: Option<Resource>)
    ensures readable(path) ==> r == Some(Requested(path))
    ensures !readable(path) && IsClientRoute(path) ==> r == Some(ClassPath(IndexHtml))
    ensures !readable(path) && !IsClientRoute(path) ==> r == None
  {
    ReservedPrefixTests(path);
    if readable(path) then Some(Requested(path))
    else if !StartsWith(path, "api/")
         && !StartsWith(path, "assets/")
         && !StartsWith(path, "swagger-ui/")
         && !StartsWith(path, "v3/api-docs/")
         && '.' !in path then
      Some(ClassPath(IndexHtml))
    else None
  }

  /** The existence check comes first: an existing file is served even under
      a reserved prefix or with a dot in its path. */
  lemma ExistingFileWins(path: string, readable: string -> bool)
    requires readable(path)
    requires HasReservedPrefix(path) || '.' in path
    ensures GetResource(path, readable) == Some(Requested(path))
  {
  }

  /** A missing file under a reserved prefix is not found. */
  lemma MissingReservedIsNull(path: string, readable: string -> bool, i: int)
    requires 0 <= i < |ReservedPrefixes| && StartsWith(path, ReservedPrefixes[i])
    requires !readable(path)
    ensures GetResource(path, readable) == None
  {
  }

  /** A missing file with a dot in its path (an asset) is not found. */
  lemma MissingDottedIsNull(path: string, readable: string -> bool)
    requires '.' in path && !readable(path)
    ensures GetResource(path, readable) == None
  {
  }

  lemma Examples(readable: string -> bool)
    requires forall p :: !readable(p)
    ensures GetResource("courses/42", readable) == Some(ClassPath(IndexHtml))
    ensures GetResource("api/courses", readable) == None
    ensures GetResource("favicon.ico", readable) == None
    ensures GetResource("", readable) == Some(ClassPath(IndexHtml))
  {
    var route := "courses/42";
    forall i | 0 <= i < |ReservedPrefixes|
      ensures !StartsWith(route, ReservedPrefixes[i])
    {
      var p := ReservedPrefixes[i];
      assert route[0] != p[0];
      assert |p| <= |route| ==> route[..|p|][0] != p[0];
    }
    assert StartsWith("api/courses", ReservedPrefixes[0]);
  }
}
