# maint-http string layer, in Dafny

maint-http is a small HTTP server that acts as a maintenance backend behind
a load balancer. It answers every request with one maintenance page. The
exception is requests for the page's own resources (images, style sheets),
which live under a configurable URL context (default `res`). This project
models the server's string layer and proves properties of it:

- the start-up sanitizing of the resource context: one slash is trimmed
  from each end, then the result is wrapped in `/…/`;
- the start-up sanitizing of the directory to serve: one trailing slash is
  trimmed, then one is appended;
- the per-request path rewrite. A path that contains the context is cut down
  to the part that starts at the leftmost occurrence of the context. Every
  other path becomes `/`, the maintenance page. The request then goes on to
  the file server.

Modules:

- `GoStrings` (`go_strings.dfy`): `strings.HasPrefix`, `HasSuffix`,
  `TrimPrefix` and `TrimSuffix` from Go's standard library.
- `LiteralRegexp` (`literal_regexp.dfy`): the handler's two regexp calls,
  for a pattern with no regexp metacharacters. Matching becomes substring
  search. The trailing `.*` of the capture stops at the first newline,
  because Go's `.` does not match `'\n'`.
- `MaintHttp` (`maint_http.dfy`): the two sanitizers, the rewrite and the
  lemmas about them. It also holds the mutable state as classes.
  - `Settings` holds the process-wide `dir` and `ctxRes` that start-up
    overwrites.
  - `Request` holds the URL path that the handler overwrites.
  - `FileServer` is the wrapped handler. It is seen only through the list
    of paths it was asked to serve.
  - `MaintHandler` is the closure that `handlerMaint` returns.

Where the code and the design description of the server disagree, the model
follows the code:

- The design says the sanitized context and directory have exactly one
  slash at each end. The code trims at most one slash, so `//res//` stays
  `//res//` and `dir//` stays `dir//`
  (`SanitizeContextExampleDoubled`, `SanitizeDir`).
- The design says a resource path is rewritten to the whole tail `P[i:]`.
  The code captures with `ctx + ".*"`, which stops at a newline, so
  `/res/a\nb` becomes `/res/a` (`RewriteExampleNewline`). The tail is
  exact only when no newline follows the match (`RewriteResourceSuffix`).

## Model

| member | source | states |
|---|---|---|
| `GoStrings.TrimPrefix` | maint-http.go:87 | a prefix that is present is removed exactly once (`pre + r == s`); otherwise `s` comes back unchanged |
| `GoStrings.TrimSuffix` | maint-http.go:90 | a suffix that is present is removed exactly once (`r + suf == s`); otherwise `s` comes back unchanged |
| `LiteralRegexp.FindFrom` | maint-http.go:55-60 | the result is an occurrence of the pattern with no occurrence before it, or none is reported and the pattern occurs nowhere from `k` on |
| `LiteralRegexp.LineEnd` | maint-http.go:58 | where `.*` stops: the first newline at or after `k`, or the end of the string; no newline lies in between |
| `LiteralRegexp.LeftmostExists` | maint-http.go:58-61 | a path that contains the context has a leftmost occurrence of it |
| `LiteralRegexp.MatchString` | maint-http.go:55-60 | the match test is true exactly when the literal context occurs in the path |
| `LiteralRegexp.FindStringDotStar` | maint-http.go:58-61 | the capture runs from the leftmost occurrence to the end of its line; it is `""` when the context does not occur |
| `MaintHttp.SanitizeContext` | maint-http.go:87 | the result starts and ends with `/` and has length at least 2; between those slashes is the input with at most one slash removed from each end |
| `MaintHttp.SanitizeDir` | maint-http.go:90 | the result ends with `/`; an input ending in `/` is unchanged; any other input gains exactly one `/` |
| `MaintHttp.SanitizeContextFixedPoints` | maint-http.go:87 | sanitizing leaves a context unchanged if and only if it already starts and ends with `/` and has length at least 2 |
| `MaintHttp.SanitizeContextIdempotent` | maint-http.go:87 | sanitizing the context twice equals sanitizing it once |
| `MaintHttp.SanitizeContextWraps` | maint-http.go:87 | if `m` has no slash at either end, then `m`, `/m`, `m/` and `/m/` all become `/m/` |
| `MaintHttp.SanitizeContextExampleRes` | maint-http.go:75-87 | `res`, `/res`, `res/` and `/res/` all become `/res/` |
| `MaintHttp.SanitizeContextExampleEmpty` | maint-http.go:87 | the empty context and `/` both become `//` |
| `MaintHttp.SanitizeContextExampleDoubled` | maint-http.go:87 | `//res//` stays `//res//`: only one slash is trimmed per end |
| `MaintHttp.SanitizeContextKeepsLiteral` | maint-http.go:87 | sanitizing a context with no metacharacters gives a context with no metacharacters |
| `MaintHttp.SanitizeDirIdempotent` | maint-http.go:90 | sanitizing the directory twice equals sanitizing it once |
| `MaintHttp.SanitizeDirKeepsPrefix` | maint-http.go:90 | the configured directory is a prefix of the sanitized one, which is at most one character longer |
| `MaintHttp.Rewrite` | maint-http.go:60-64 | a path without the context becomes `/`; a path with it becomes a substring of the original that starts with the context |
| `MaintHttp.RewriteResource` | maint-http.go:58-61 | with `i` the leftmost occurrence, the rewritten path is `path[i..e]`, where `e` is the first newline after the match or the end of the path |
| `MaintHttp.RewriteResourceSuffix` | maint-http.go:58-61 | if no newline follows the match, the rewritten path is exactly `path[i..]`: a suffix of the path that starts with the context |
| `MaintHttp.RewriteKeepsCapture` | maint-http.go:58-61 | a path that starts with the context and has no newline after it is served unchanged |
| `MaintHttp.RewriteIdempotent` | maint-http.go:60-63 | for every literal context, rewriting a rewritten path changes nothing |
| `MaintHttp.RewriteSanitized` | maint-http.go:60-63 | with a sanitized context, `/` never contains the context, the context stays literal and every rewritten path starts with `/` |
| `MaintHttp.RewriteExampleRoot` | maint-http.go:62-63 | with context `/res/`, both `/anything/random` and `/` are served as `/` |
| `MaintHttp.RewriteExampleResource` | maint-http.go:60-61 | `/res/logo.png` is kept, and `/app/res/logo.png` loses its leading `/app` |
| `MaintHttp.RewriteExampleNewline` | maint-http.go:58-61 | the capture of `/res/a\nb` stops at the newline, giving `/res/a` |
| `MaintHttp.Settings.constructor` | maint-http.go:73-77 | the settings hold the configured directory and context |
| `MaintHttp.Settings.Sanitize` | maint-http.go:86-90 | the context and the directory are overwritten with their sanitized values |
| `MaintHttp.FileServer.ServeHTTP` | maint-http.go:65 | the wrapped server receives the request's current path, appended to what it has served |
| `MaintHttp.MaintHandler.constructor` | maint-http.go:50-51 | the handler captures the settings it reads and the handler it wraps |
| `MaintHttp.MaintHandler.ServeHTTP` | maint-http.go:50-68 | the request's path becomes `Rewrite` of its old path under the current context; then the wrapped server is called exactly once, with the rewritten path |
| `MaintHttp.Start` | maint-http.go:86-94 | the settings are sanitized in place, and a fresh handler wraps a fresh file server that has served nothing |

## Left out

- `MaintHttp.Rewrite`: requires a context without Go regexp metacharacters
  (`IsLiteral`). Only then is the pattern its own text, and only then can
  `regexp.MustCompile` never panic. General regular expressions are not
  modelled. The same requirement sits on `LiteralRegexp.MatchString`,
  `LiteralRegexp.FindStringDotStar` and `MaintHttp.MaintHandler.ServeHTTP`.
- Strings are sequences of characters. Go's regexp reads UTF-8, and it
  treats an invalid byte as one replacement character. The model does not
  capture that.
- Flag parsing, the version query, its output and its exit status 1
  (maint-http.go:73-84). These are process plumbing. `Settings` starts from
  values that are already parsed.
- `http.FileServer`, `http.Dir`, `http.Handle`, `ListenAndServe`, logging
  and `log.Fatal` (maint-http.go:91-102). These are library I/O and
  networking. The file server is only an opaque recipient of rewritten
  paths.
- The response writer `w`. The handler passes it through untouched, so the
  model leaves it out.
- A forced response status (200 or 503). The server's design describes one,
  but the source has no status flag and no response-writer wrapper.
- Concurrent handling of requests by Go's HTTP server. Each request only
  reads the settings and writes its own path.
