/** The payer's metadata endpoint: the directory of the registered API
    routes, each id mapped to its URL with hapi's `{param}` placeholders
    rewritten in the `:param` style. */
module PayerMetadata {
  import opened Values
  import opened Outbound
  import Text

  /** A row of the server's routing table: the path and the `id` and `tags`
      of its settings (`None` when unset, or when the tags are not an
      array). */
  datatype Route = Route(path: string, id: Option<string>, tags: Option<seq<string>>)

  /** A route that is listed: it has an id and is tagged "api". */
  predicate IsApiRoute(r: Route) {
    r.id.Some? && r.tags.Some? && "api" in r.tags.value
  }

  /** The path with every '{' replaced by ':' and every '}' removed. */
  function RoutePath(path: string): (p: string)
    ensures '{' !in p && '}' !in p
    ensures forall c :: c in p ==> c in path || c == ':'
    ensures '{' !in path && '}' !in path ==> p == path
  {
    var replaced := Text.ReplaceChar(path, '{', ':');
    assert '}' !in path ==> '}' !in replaced;
    assert forall c :: c in replaced ==> c in path || c == ':';
    Text.RemoveChar(replaced, '}')
  }

  /** Without a closing brace, the rewrite only turns each '{' into ':',
      character by character. */
  lemma RoutePathMarksParameters(path: string)
    ensures '}' !in path ==>
      && |RoutePath(path)| == |path|
      && forall i :: 0 <= i < |path| ==> RoutePath(path)[i] == (if path[i] == '{' then ':' else path[i])
  {
    assert '}' !in path ==> '}' !in Text.ReplaceChar(path, '{', ':');
  }

  /** The rewrite works piece by piece, in order. */
  lemma RoutePathAppend(a: string, b: string)
    ensures RoutePath(a + b) == RoutePath(a) + RoutePath(b)
  {
    Text.ReplaceCharAppend(a, b, '{', ':');
    Text.RemoveCharAppend(Text.ReplaceChar(a, '{', ':'), Text.ReplaceChar(b, '{', ':'), '}');
  }

  /** A '}' contributes nothing: it is dropped and its neighbours meet. */
  lemma RoutePathDropsBrace(a: string, b: string)
    ensures RoutePath(a + "}" + b) == RoutePath(a) + RoutePath(b)
  {
    assert Text.ReplaceChar("}", '{', ':') == "}";
    assert RoutePath("}") == "";
    RoutePathAppend(a, "}");
    RoutePathAppend(a + "}", b);
  }

  function UrlFor(path: string): string {
    "localhost" + RoutePath(path)
  }

  /** The listed routes, in table order. */
  function ApiRoutes(routes: seq<Route>): (api: seq<Route>)
    ensures |api| <= |routes|
    ensures forall r :: r in api ==> IsApiRoute(r) && r in routes
    ensures forall r :: r in routes && IsApiRoute(r) ==> r in api
  {
    if routes == [] then []
    else
      var last := routes[|routes| - 1];
      var init := routes[..|routes| - 1];
      assert routes == init + [last];
      ApiRoutes(init) + (if IsApiRoute(last) then [last] else [])
  }

  /** The URL directory of a routing table: the listed routes applied in
      order, so a later route overwrites an earlier one with the same id. */
  function UrlsOf(routes: seq<Route>): map<string, string> {
    if routes == [] then map[]
    else
      var last := routes[|routes| - 1];
      var urls := UrlsOf(routes[..|routes| - 1]);
      if IsApiRoute(last) then urls[last.id.value := UrlFor(last.path)] else urls
  }

  /** The ids of the listed routes. */
  function ApiIds(routes: seq<Route>): set<string> {
    set i | 0 <= i < |routes| && IsApiRoute(routes[i]) :: routes[i].id.value
  }

  lemma {:induction false} UrlsOfApiRoutes(routes: seq<Route>)
    ensures UrlsOf(ApiRoutes(routes)) == UrlsOf(routes)
    decreases |routes|
  {
    if routes != [] {
      var last := routes[|routes| - 1];
      var init := routes[..|routes| - 1];
      UrlsOfApiRoutes(init);
      var api := ApiRoutes(init);
      var full := ApiRoutes(routes);
      if IsApiRoute(last) {
        assert full == api + [last];
        assert full[|full| - 1] == last;
        assert full[..|full| - 1] == api;
        calc {
          UrlsOf(full);
          UrlsOf(api)[last.id.value := UrlFor(last.path)];
          UrlsOf(init)[last.id.value := UrlFor(last.path)];
          UrlsOf(routes);
        }
      } else {
        assert full == api;
      }
    }
  }

  /** Exactly the listed routes' ids appear in the directory. */
  lemma {:induction false} UrlsKeys(routes: seq<Route>)
    ensures UrlsOf(routes).Keys == ApiIds(routes)
    decreases |routes|
  {
    if routes != [] {
      var last := routes[|routes| - 1];
      var init := routes[..|routes| - 1];
      UrlsKeys(init);
      assert forall i :: 0 <= i < |init| ==> init[i] == routes[i];
      if IsApiRoute(last) {
        assert ApiIds(routes) == ApiIds(init) + {last.id.value};
      } else {
        assert ApiIds(routes) == ApiIds(init);
      }
    }
  }

  /** The URL of an id is that of the last listed route with that id. */
  lemma {:induction false} UrlsLastWins(routes: seq<Route>, j: nat)
    requires j < |routes| && IsApiRoute(routes[j])
    requires forall i :: j < i < |routes| && IsApiRoute(routes[i]) ==> routes[i].id != routes[j].id
    ensures routes[j].id.value in UrlsOf(routes)
    ensures UrlsOf(routes)[routes[j].id.value] == UrlFor(routes[j].path)
    decreases |routes|
  {
    var last := routes[|routes| - 1];
    var init := routes[..|routes| - 1];
    if j < |routes| - 1 {
      assert init[j] == routes[j];
      assert forall i :: j < i < |init| ==> init[i] == routes[i];
      UrlsLastWins(init, j);
    }
  }

  /** `extractUrls`: filter the routing table, then record each listed
      route's URL under its id. */
  method ExtractUrls(routes: seq<Route>) returns (urls: map<string, string>)
    ensures urls == UrlsOf(routes)
  {
    var api := ApiRoutes(routes);
    urls := map[];
    var i := 0;
    while i < |api|
      invariant 0 <= i <= |api|
      invariant urls == UrlsOf(api[..i])
    {
      var route := api[i];
      assert IsApiRoute(route) by { assert route in api; }
      assert api[..i + 1][..i] == api[..i];
      urls := urls[route.id.value := UrlFor(route.path)];
      i := i + 1;
    }
    assert api[..|api|] == api;
    UrlsOfApiRoutes(routes);
  }

  /** `metadata`: the directory name and the URL table, answered with 200. */
  method Metadata(routes: seq<Route>) returns (code: int, directory: string, urls: map<string, string>)
    ensures code == OK && directory == "localhost"
    ensures urls.Keys == ApiIds(routes)
    ensures urls == UrlsOf(routes)
  {
    urls := ExtractUrls(routes);
    UrlsKeys(routes);
    code, directory := OK, "localhost";
  }

  lemma ReplaceExample()
    ensures Text.ReplaceChar("/{id}", '{', ':') == "/:id}"
  {
  }

  lemma RemoveExample()
    ensures Text.RemoveChar("/:id}", '}') == "/:id"
  {
    assert Text.RemoveChar("}", '}') == "";
    assert Text.RemoveChar("d}", '}') == "d";
  }

  /** A path parameter is rewritten in the `:param` style. */
  lemma PathExample()
    ensures RoutePath("/{id}") == "/:id"
  {
    ReplaceExample();
    RemoveExample();
  }

  /** A path without braces is listed under the host unchanged. */
  lemma PlainPathKept(path: string)
    requires '{' !in path && '}' !in path
    ensures UrlFor(path) == "localhost" + path
  {
  }

  lemma ListedThenUnlisted(listed: Route, other: Route)
    requires IsApiRoute(listed) && !IsApiRoute(other)
    ensures UrlsOf([listed, other]) == map[listed.id.value := UrlFor(listed.path)]
  {
    assert [listed, other][..1] == [listed];
    assert [listed][..0] == [];
    assert UrlsOf([listed]) == UrlsOf([])[listed.id.value := UrlFor(listed.path)];
    assert UrlsOf([listed, other]) == UrlsOf([listed]);
  }

  /** Of two routes only the one tagged "api" is listed. */
  lemma DirectoryExample()
    ensures UrlsOf([Route("/quotes", Some("quotes"), Some(["api"])),
                    Route("/health", Some("health"), Some([]))]) ==
            map["quotes" := UrlFor("/quotes")]
  {
    var quotes := Route("/quotes", Some("quotes"), Some(["api"]));
    var health := Route("/health", Some("health"), Some([]));
    assert "api" in ["api"];
    ListedThenUnlisted(quotes, health);
  }
}
