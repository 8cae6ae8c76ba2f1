/** The HTTP cache-header middleware. For every response the application
    renders it chooses one of four outcomes:
      - the response goes back through `withoutCaching()` (authenticated
        users, POST requests);
      - the response goes back untouched (any other non-GET method);
      - a 304 Not Modified (If-None-Match handling, sections 13.1.2 and
        15.4.5 of RFC 9110);
      - the response is decorated with an `ETag` (section 8.8.3 of RFC 9110),
        a `Last-Modified` (section 8.8.2 of RFC 9110), a `Cache-Control`
        chosen from the path and route (section 5.2.2 of RFC 9111, with
        `stale-while-revalidate` from section 3 of RFC 5861 and `immutable`
        from section 2 of RFC 8246), `Vary: Accept-Encoding`, and is marked
        public.
    SHA-256 (FIPS 180-4) and HTTP-date formatting are opaque to the model:
    they are passed in as functions. Header names are stored lower-case, as
    the framework's header bag stores them. */
module HttpCacheHeaders {
  import opened Strings
  import Php

  datatype Request = Request(
    authenticated: bool,          // `$request->user() !== null`
    verb: string,                 // the upper-case method, as `getMethod()` gives it
    pathInfo: string,
    routeName: Php.Option<string>,    // `route()?->getName()`: None without a route or a name
    ifNoneMatch: seq<string>)     // `getETags()`: the If-None-Match entity tags, quotes kept

  datatype Response = Response(
    status: int,
    body: string,
    headers: map<string, string>,
    isPublic: bool)

  datatype Outcome =
    | NoCaching(response: Response)     // returned through `withoutCaching()`
    | Untouched(response: Response)
    | NotModified(response: Response)
    | Decorated(response: Response)

  const CacheImmutable := "public, max-age=31536000, immutable"
  const CacheDay := "public, max-age=86400, stale-while-revalidate=604800"
  const CacheHour := "public, max-age=3600, stale-while-revalidate=86400"

  /** The alternatives of the static-asset pattern, `woff2?` written out. */
  const StaticExtensions: seq<string> :=
    ["js", "css", "woff", "woff2", "ttf", "otf", "eot", "jpg", "jpeg", "png", "gif", "svg", "webp"]

  predicate EndsWithStaticExtension(p: string) {
    exists k | 0 <= k < |StaticExtensions| :: EndsWith(p, "." + StaticExtensions[k])
  }

  /** The pattern `\.(js|css|...)$` without the D modifier: `$` matches at the
      very end or just before one final newline. Case-sensitive. */
  predicate IsStaticAsset(pathInfo: string) {
    || EndsWithStaticExtension(pathInfo)
    || (|pathInfo| > 0 && pathInfo[|pathInfo| - 1] == '\n'
        && EndsWithStaticExtension(pathInfo[..|pathInfo| - 1]))
  }

  function RouteNameOrEmpty(req: Request): string {
    match req.routeName
    case None => ""
    case Some(name) => name
  }

  /** The `Cache-Control` value for a path and route name, first match wins:
      static assets, then product routes, then category routes, then home,
      then the default. The result is always one of the three policies; the
      static test dominates every route name; a route name mentioning
      `product` or `category` (case-sensitively) gets a day; everything
      else, `home` and the unnamed route included, gets an hour. */
  function CacheControl(pathInfo: string, routeName: string): (cc: string)
    ensures cc == CacheImmutable || cc == CacheDay || cc == CacheHour
    ensures cc == CacheImmutable <==> IsStaticAsset(pathInfo)
    ensures cc == CacheDay <==>
      !IsStaticAsset(pathInfo) && (Contains(routeName, "product") || Contains(routeName, "category"))
    ensures cc == CacheHour <==>
      !IsStaticAsset(pathInfo) && !Contains(routeName, "product") && !Contains(routeName, "category")
  {
    if IsStaticAsset(pathInfo) then CacheImmutable
    else if Contains(routeName, "product") then CacheDay
    else if Contains(routeName, "category") then CacheDay
    else if Contains(routeName, "home") then CacheHour
    else CacheHour
  }

  /** Every path ending in `.svg` is an immutable asset, whatever the route. */
  lemma SvgIsImmutable(pathInfo: string, routeName: string)
    requires EndsWith(pathInfo, ".svg")
    ensures CacheControl(pathInfo, routeName) == CacheImmutable
  {
    assert StaticExtensions[11] == "svg";
    assert EndsWith(pathInfo, "." + StaticExtensions[11]);
  }

  /** Both `woff` and `woff2` are static. */
  lemma FontExtensions()
    ensures IsStaticAsset("/fonts/icons.woff") && IsStaticAsset("/fonts/icons.woff2")
  {
    assert EndsWith("/fonts/icons.woff", "." + StaticExtensions[2]);
    assert EndsWith("/fonts/icons.woff2", "." + StaticExtensions[3]);
  }

  /** One trailing newline still matches; a second one does not. */
  lemma TrailingNewline()
    ensures IsStaticAsset("/app.css\n")
    ensures !IsStaticAsset("/app.css\n\n")
  {
    assert "/app.css\n"[..8] == "/app.css";
    assert EndsWith("/app.css", "." + StaticExtensions[1]);
    NoLowerExtension("/app.css\n");
    NoLowerExtension("/app.css\n\n");
  }

  /** The extension test is case-sensitive. */
  lemma UpperCaseExtension()
    ensures !IsStaticAsset("/APP.CSS")
  {
    NoLowerExtension("/APP.CSS");
  }

  /** A path whose last character is no lower-case letter or digit ends in no
      listed extension. */
  lemma NoLowerExtension(p: string)
    requires |p| > 0 && !('a' <= p[|p| - 1] <= 'z') && !('0' <= p[|p| - 1] <= '9')
    ensures !EndsWithStaticExtension(p)
  {
    forall k | 0 <= k < |StaticExtensions| ensures !EndsWith(p, "." + StaticExtensions[k]) {
      var e := "." + StaticExtensions[k];
      assert 'a' <= e[|e| - 1] <= 'z' || '0' <= e[|e| - 1] <= '9';
    }
  }

  /** `setEtag`: a tag not already quoted is wrapped in double quotes. */
  function QuoteETag(tag: string): string {
    if |tag| > 0 && tag[0] == '"' then tag else "\"" + tag + "\""
  }

  function SetHeader(r: Response, name: string, value: string): Response {
    r.(headers := r.headers[name := value])
  }

  function SetPublic(r: Response): Response {
    r.(isPublic := true)
  }

  /** The fresh empty response that `response()->setNotModified()` gives. */
  function NotModifiedResponse(): Response {
    Response(304, "", map[], false)
  }

  function ETagValues(tags: seq<string>): seq<Php.Value> {
    seq(|tags|, k requires 0 <= k < |tags| => Php.Str(tags[k]))
  }

  /** The response of the GET path when no 304 is sent. */
  function DecoratedResponse(req: Request, downstream: Response, etag: string, lastModified: string): Response {
    Response(downstream.status, downstream.body,
      downstream.headers["etag" := QuoteETag(etag)]["last-modified" := lastModified]
        ["cache-control" := CacheControl(req.pathInfo, RouteNameOrEmpty(req))]
        ["vary" := "Accept-Encoding"],
      true)
  }

  /** The middleware as written. The If-None-Match test compares the whole
      array of client tags strictly with the one computed tag string, so it
      never holds: no request, not even one echoing the ETag it was given,
      gets a 304. */
  method Handle(req: Request, downstream: Response, now: int,
                sha256Hex: string -> string, httpDate: int -> string)
    returns (out: Outcome)
    ensures req.authenticated ==> out == NoCaching(downstream)
    ensures !req.authenticated && req.verb == "POST" ==> out == NoCaching(downstream)
    ensures !req.authenticated && req.verb != "POST" && req.verb != "GET" ==>
      out == Untouched(downstream)
    ensures !req.authenticated && req.verb == "GET" ==>
      out == Decorated(DecoratedResponse(req, downstream, sha256Hex(downstream.body), httpDate(now)))
    ensures !out.NotModified?
  {
    var response := downstream;
    if req.authenticated {
      return NoCaching(response);
    }
    if req.verb == "POST" {
      return NoCaching(response);
    }
    if req.verb == "GET" {
      var etag := sha256Hex(response.body);
      response := SetHeader(response, "etag", QuoteETag(etag));
      response := SetHeader(response, "last-modified", httpDate(now));
      if Php.InArrayStrict(Php.Arr(ETagValues(req.ifNoneMatch)), [Php.Str(etag)]) {
        return NotModified(NotModifiedResponse());
      }
      response := SetHeader(response, "cache-control", CacheControl(req.pathInfo, RouteNameOrEmpty(req)));
      response := SetHeader(response, "vary", "Accept-Encoding");
      response := SetPublic(response);
      return Decorated(response);
    }
    return Untouched(response);
  }

  /** The GET path as evidently intended: a client that sends back the
      quoted ETag of the current body gets an empty 304 carrying that ETag;
      every other GET gets the decorated response. The other branches are
      those of Handle. */
  method HandleCorrected(req: Request, downstream: Response, now: int,
                         sha256Hex: string -> string, httpDate: int -> string)
    returns (out: Outcome)
    ensures req.authenticated || req.verb != "GET" ==>
      out == (if req.authenticated || req.verb == "POST" then NoCaching(downstream) else Untouched(downstream))
    ensures out.NotModified? <==>
      !req.authenticated && req.verb == "GET" && QuoteETag(sha256Hex(downstream.body)) in req.ifNoneMatch
    ensures out.NotModified? ==>
      out.response.status == 304 && out.response.body == ""
      && out.response.headers == map["etag" := QuoteETag(sha256Hex(downstream.body))]
    ensures (!req.authenticated && req.verb == "GET"
             && QuoteETag(sha256Hex(downstream.body)) !in req.ifNoneMatch) ==>
      out == Decorated(DecoratedResponse(req, downstream, sha256Hex(downstream.body), httpDate(now)))
    ensures out.Decorated? ==>
      out.response == DecoratedResponse(req, downstream, sha256Hex(downstream.body), httpDate(now))
      && out.response.headers["etag"] !in req.ifNoneMatch
  {
    var response := downstream;
    if req.authenticated {
      return NoCaching(response);
    }
    if req.verb == "POST" {
      return NoCaching(response);
    }
    if req.verb == "GET" {
      var etag := QuoteETag(sha256Hex(response.body));
      if etag in req.ifNoneMatch {
        return NotModified(SetHeader(NotModifiedResponse(), "etag", etag));
      }
      response := SetHeader(response, "etag", etag);
      response := SetHeader(response, "last-modified", httpDate(now));
      response := SetHeader(response, "cache-control", CacheControl(req.pathInfo, RouteNameOrEmpty(req)));
      response := SetHeader(response, "vary", "Accept-Encoding");
      response := SetPublic(response);
      return Decorated(response);
    }
    return Untouched(response);
  }
}
