/**
  maint-http: an HTTP server that answers every request with one maintenance
  page, except requests for the page's own resources (images, style sheets)
  under a configurable URL context.

  This module holds the server's string layer: the sanitizing of the
  resource context and of the served directory at start-up, and the
  rewriting of every request path before it reaches the file server.
 */
module MaintHttp {
  import opened GoStrings
  import opened LiteralRegexp

  // ---------------------------------------------------------------------
  // Start-up sanitizing
  // ---------------------------------------------------------------------

  /** `s` begins and ends with a slash and has room for both. */
  predicate IsSlashed(s: string) {
    |s| >= 2 && s[0] == '/' && s[|s| - 1] == '/'
  }

  /** `m` is `c` with at most one leading and at most one trailing slash removed. */
  predicate StripsAtMostOneSlash(c: string, m: string) {
    c == m || c == "/" + m || c == m + "/" || c == "/" + m + "/"
  }

  /** The resource context as the server uses it: one slash trimmed from
      each end of the configured value, then the result wrapped in slashes. */
  function SanitizeContext(ctx: string): (r: string)
    ensures IsSlashed(r)
    ensures StripsAtMostOneSlash(ctx, r[1..|r| - 1])
  {
    "/" + TrimPrefix(TrimSuffix(ctx, "/"), "/") + "/"
  }

  /** The directory to serve: one trailing slash trimmed, then one appended. */
  function SanitizeDir(dir: string): (r: string)
    ensures HasSuffix(r, "/")
    ensures HasSuffix(dir, "/") ==> r == dir
    ensures !HasSuffix(dir, "/") ==> r == dir + "/"
  {
    TrimSuffix(dir, "/") + "/"
  }

  /** The strings the context sanitizer leaves alone are exactly those that
      already begin and end with a slash. */
  lemma SanitizeContextFixedPoints(ctx: string)
    ensures SanitizeContext(ctx) == ctx <==> IsSlashed(ctx)
  {
    if IsSlashed(ctx) {
      var m := ctx[1..|ctx| - 1];
      assert ctx == "/" + m + "/";
      assert TrimSuffix(ctx, "/") == "/" + m;
      assert TrimPrefix("/" + m, "/") == m;
    }
  }

  /** Sanitizing the context twice gives what sanitizing it once gives. */
  lemma SanitizeContextIdempotent(ctx: string)
    ensures SanitizeContext(SanitizeContext(ctx)) == SanitizeContext(ctx)
  {
    SanitizeContextFixedPoints(SanitizeContext(ctx));
  }

  /** A context with no slash at either end becomes `/m/` whether it is
      configured bare, with a leading slash, with a trailing slash or with both. */
  lemma SanitizeContextWraps(m: string)
    requires m == [] || (m[0] != '/' && m[|m| - 1] != '/')
    ensures SanitizeContext(m) == "/" + m + "/"
    ensures SanitizeContext("/" + m) == "/" + m + "/"
    ensures SanitizeContext(m + "/") == "/" + m + "/"
    ensures SanitizeContext("/" + m + "/") == "/" + m + "/"
  {
    assert !HasSuffix(m, "/") && !HasPrefix(m, "/");
    assert TrimSuffix("/" + m, "/") == "/" + m || m == [];
    assert TrimSuffix(m + "/", "/") == m;
    assert TrimSuffix("/" + m + "/", "/") == "/" + m;
    assert TrimPrefix("/" + m, "/") == m;
  }

  /** `res` in all four spellings becomes `/res/`. */
  lemma SanitizeContextExampleRes()
    ensures SanitizeContext("res") == "/res/"
    ensures SanitizeContext("/res") == "/res/"
    ensures SanitizeContext("res/") == "/res/"
    ensures SanitizeContext("/res/") == "/res/"
  {
    SanitizeContextWraps("res");
    assert "/" + "res" + "/" == "/res/";
    assert "/" + "res" == "/res";
    assert "res" + "/" == "res/";
  }

  /** The empty context and `/` both become `//`. */
  lemma SanitizeContextExampleEmpty()
    ensures SanitizeContext("") == "//"
    ensures SanitizeContext("/") == "//"
  {
    assert TrimSuffix("", "/") == "";
    assert TrimSuffix("/", "/") == "";
    assert TrimPrefix("", "/") == "";
    assert "/" + "" + "/" == "//";
  }

  /** Only one slash is trimmed from each end, so doubled slashes survive. */
  lemma SanitizeContextExampleDoubled()
    ensures SanitizeContext("//res//") == "//res//"
  {
    SanitizeContextFixedPoints("//res//");
  }

  /** Sanitizing adds only slashes, so a literal context stays literal. */
  lemma SanitizeContextKeepsLiteral(ctx: string)
    requires IsLiteral(ctx)
    ensures IsLiteral(SanitizeContext(ctx))
  {
    var r := SanitizeContext(ctx);
    var m := r[1..|r| - 1];
    assert r == "/" + m + "/";
    forall k | 0 <= k < |m| ensures m[k] !in MetaChars {
      if ctx == m {
      } else if ctx == "/" + m {
        assert m[k] == ctx[k + 1];
      } else if ctx == m + "/" {
        assert m[k] == ctx[k];
      } else {
        assert m[k] == ctx[k + 1];
      }
    }
    forall k | 0 <= k < |r| ensures r[k] !in MetaChars {
      if 0 < k < |r| - 1 {
        assert r[k] == m[k - 1];
      }
    }
  }

  /** Sanitizing the directory twice gives what sanitizing it once gives. */
  lemma SanitizeDirIdempotent(dir: string)
    ensures SanitizeDir(SanitizeDir(dir)) == SanitizeDir(dir)
  {
  }

  /** The sanitized directory extends the configured one by at most the one
      slash it appends: everything the operator wrote is kept in place. */
  lemma SanitizeDirKeepsPrefix(dir: string)
    ensures HasPrefix(SanitizeDir(dir), dir)
    ensures |SanitizeDir(dir)| <= |dir| + 1
  {
  }

  // ---------------------------------------------------------------------
  // Request path rewriting
  // ---------------------------------------------------------------------

  /** The path a request is served under: the part of its path from the
      leftmost occurrence of the resource context on (to the end of that
      line), or the root `/` when the context does not occur in it. */
  function Rewrite(path: string, ctx: string): (r: string)
    requires IsLiteral(ctx)
    ensures !Contains(path, ctx) ==> r == "/"
    ensures Contains(path, ctx) ==> HasPrefix(r, ctx) && Contains(path, r)
  {
    if MatchString(path, ctx) then
      LeftmostExists(path, ctx);
      var i :| IsLeftmost(path, ctx, i);
      assert OccursAt(path, FindStringDotStar(path, ctx), i);
      FindStringDotStar(path, ctx)
    else
      "/"
  }

  /** A resource request is served from the leftmost occurrence of the
      context to the first newline after it (or the end of the path). */
  lemma RewriteResource(path: string, ctx: string, i: int)
    requires IsLiteral(ctx)
    requires IsLeftmost(path, ctx, i)
    ensures Rewrite(path, ctx) == path[i..LineEnd(path, i + |ctx|)]
  {
  }

  /** When no newline follows the match, a resource request keeps exactly
      the tail of its path from the leftmost occurrence of the context on:
      a suffix of the original path that begins with the context. */
  lemma RewriteResourceSuffix(path: string, ctx: string, i: int)
    requires IsLiteral(ctx)
    requires IsLeftmost(path, ctx, i)
    requires forall j :: i + |ctx| <= j < |path| ==> path[j] != '\n'
    ensures Rewrite(path, ctx) == path[i..]
    ensures HasSuffix(path, Rewrite(path, ctx)) && HasPrefix(Rewrite(path, ctx), ctx)
  {
    RewriteResource(path, ctx, i);
    assert LineEnd(path, i + |ctx|) == |path|;
  }

  /** A path that begins with the context and has no newline after it is
      served unchanged. */
  lemma RewriteKeepsCapture(s: string, ctx: string)
    requires IsLiteral(ctx)
    requires HasPrefix(s, ctx)
    requires forall j :: |ctx| <= j < |s| ==> s[j] != '\n'
    ensures Rewrite(s, ctx) == s
  {
    assert OccursAt(s, ctx, 0);
    RewriteResourceSuffix(s, ctx, 0);
  }

  /** Rewriting a rewritten path changes nothing. */
  lemma RewriteIdempotent(path: string, ctx: string)
    requires IsLiteral(ctx)
    ensures Rewrite(Rewrite(path, ctx), ctx) == Rewrite(path, ctx)
  {
    var r := Rewrite(path, ctx);
    if Contains(path, ctx) {
      LeftmostExists(path, ctx);
      var i :| IsLeftmost(path, ctx, i);
      RewriteResource(path, ctx, i);
      var e := LineEnd(path, i + |ctx|);
      forall j | |ctx| <= j < |r| ensures r[j] != '\n' {
        assert r[j] == path[i + j];
      }
      RewriteKeepsCapture(r, ctx);
    } else if Contains("/", ctx) {
      var i :| 0 <= i <= 1 && OccursAt("/", ctx, i);
      assert HasPrefix("/", ctx) by {
        if |ctx| == 1 {
          assert i == 0;
        }
      }
      RewriteKeepsCapture("/", ctx);
    }
  }

  /** With a sanitized context the root path is never a resource request,
      and every rewritten path is absolute. */
  lemma RewriteSanitized(path: string, ctx: string)
    requires IsLiteral(ctx)
    ensures !Contains("/", SanitizeContext(ctx))
    ensures IsLiteral(SanitizeContext(ctx))
    ensures var r := Rewrite(path, SanitizeContext(ctx)); |r| >= 1 && r[0] == '/'
  {
    var c := SanitizeContext(ctx);
    SanitizeContextKeepsLiteral(ctx);
    var r := Rewrite(path, c);
    if Contains(path, c) {
      assert r[0] == c[0];
    }
  }

  /** Paths without the context `/res/` (a literal pattern) go to the root document. */
  lemma RewriteExampleRoot()
    ensures IsLiteral("/res/")
    ensures Rewrite("/anything/random", "/res/") == "/"
    ensures Rewrite("/", "/res/") == "/"
  {
    AbsentCharNotContained("/anything/random", "/res/", 2);
    AbsentCharNotContained("/", "/res/", 1);
  }

  /** A resource path is kept, and anything before the context is dropped,
      even when the context sits deep inside the path. */
  lemma RewriteExampleResource()
    ensures Rewrite("/res/logo.png", "/res/") == "/res/logo.png"
    ensures Rewrite("/app/res/logo.png", "/res/") == "/res/logo.png"
  {
    RewriteKeepsCapture("/res/logo.png", "/res/");
    var app := "/app/res/logo.png";
    assert app[1] == 'a' && app[2] == 'p' && app[3] == 'p';
    assert OccursAt(app, "/res/", 4);
    assert IsLeftmost(app, "/res/", 4);
    RewriteResourceSuffix(app, "/res/", 4);
    assert app[4..] == "/res/logo.png";
  }

  /** A newline after the context ends the captured path. */
  lemma RewriteExampleNewline()
    ensures Rewrite("/res/a\nb", "/res/") == "/res/a"
  {
    var p := "/res/a\nb";
    assert IsLeftmost(p, "/res/", 0);
    RewriteResource(p, "/res/", 0);
    assert LineEnd(p, 5) == 6;
    assert p[..6] == "/res/a";
  }

  // ---------------------------------------------------------------------
  // The server's state
  // ---------------------------------------------------------------------

  /** The process-wide settings the handler reads on every request. */
  class Settings {
    var dir: string
    var ctxRes: string

    constructor (dir: string, ctxRes: string)
      ensures this.dir == dir && this.ctxRes == ctxRes
    {
      this.dir := dir;
      this.ctxRes := ctxRes;
    }

    /** Start-up sanitizing, written back into the settings. */
    method Sanitize()
      modifies this
      ensures ctxRes == SanitizeContext(old(ctxRes))
      ensures dir == SanitizeDir(old(dir))
    {
      ctxRes := "/" + TrimPrefix(TrimSuffix(ctxRes, "/"), "/") + "/";
      dir := TrimSuffix(dir, "/") + "/";
    }
  }

  /** An incoming request; the server reads and writes only its URL path. */
  class Request {
    var path: string

    constructor (path: string)
      ensures this.path == path
    {
      this.path := path;
    }
  }

  /** The wrapped file server, seen only through the paths it is asked to serve. */
  class FileServer {
    var served: seq<string>

    constructor ()
      ensures served == []
    {
      served := [];
    }

    method ServeHTTP(r: Request)
      modifies this
      ensures served == old(served) + [r.path]
    {
      served := served + [r.path];
    }
  }

  /** The handler that rewrites each request's path and passes the request on. */
  class MaintHandler {
    const settings: Settings
    const next: FileServer

    constructor (settings: Settings, next: FileServer)
      ensures this.settings == settings && this.next == next
    {
      this.settings := settings;
      this.next := next;
    }

    /** Rewrites the request's path and hands the request, and nothing else
        changed, to the wrapped file server. */
    method ServeHTTP(r: Request)
      requires IsLiteral(settings.ctxRes)
      modifies r, next
      ensures r.path == Rewrite(old(r.path), settings.ctxRes)
      ensures next.served == old(next.served) + [r.path]
    {
      if MatchString(r.path, settings.ctxRes) {
        r.path := FindStringDotStar(r.path, settings.ctxRes);
      } else {
        r.path := "/";
      }
      next.ServeHTTP(r);
    }
  }

  /** Start-up: sanitize the settings in place, then install the handler in
      front of a fresh file server. */
  method Start(settings: Settings) returns (h: MaintHandler)
    modifies settings
    ensures settings.ctxRes == SanitizeContext(old(settings.ctxRes))
    ensures settings.dir == SanitizeDir(old(settings.dir))
    ensures fresh(h) && fresh(h.next) && h.settings == settings && h.next.served == []
  {
    settings.Sanitize();
    var fs := new FileServer();
    h := new MaintHandler(settings, fs);
  }

  /** Two requests through a server started with the default settings. */
  method DefaultSettingsScenario()
  {
    var settings := new Settings("./", "res");
    var h := Start(settings);
    SanitizeContextExampleRes();
    assert settings.ctxRes == "/res/";
    RewriteExampleRoot();

    var page := new Request("/anything/random");
    h.ServeHTTP(page);
    assert page.path == "/";

    var logo := new Request("/res/logo.png");
    h.ServeHTTP(logo);
    RewriteExampleResource();
    assert logo.path == "/res/logo.png";
    assert h.next.served == ["/", "/res/logo.png"];
  }
}
