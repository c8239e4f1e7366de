# webd boot and dispatch, in Dafny

`webd` is the web front end of quixdate. It starts by reading its configuration
(a listen address, a base path, a template path and a static map). Then it
builds the process-wide route table and starts the HTTP server. This project
models that route-table construction and the small wrappers that serve requests
on the installed routes (`src/webd/main.go`). Then it proves what the boot
installs, in what order, and how it ends.

The boot does the following, in order:

- It stops if the template path is empty.
- It trims the whole static map (a string `path:dir,path:dir,...`) once and splits it on `,`.
- It splits each pair on `:`. A pair that does not give exactly two parts aborts the boot, and so does an empty path part, which makes Go panic on `p[0]`.
- Each good pair gets a static route. A path that does not start with `/` is first placed under the base path.
- It installs the dynamic home handler at the home path. The home path is the base path, or `/` when the base path is empty.
- It installs the not-found handler at `/`, unless the home path already is `/`.

The modules:

- `GoStrings` (`go_strings.dfy`): Go's `strings.Split` with a one-character
  separator and `strings.TrimSpace` (using `unicode.IsSpace`'s white-space set),
  with their counting, round-trip and trimming properties.
- `StaticMap` (`static_map.dfy`): the pair syntax (`ParsePair`), path
  resolution (`Resolve`) and a writer for well-formed maps (`FormatMap`) that the
  parser inverts.
- `Boot` (`boot.dfy`): the boot as a specification function `BootPlan`. It gives
  the routes installed, in order, and the outcome: `Serving`,
  `Aborted(TemplateRequired)`, `Aborted(BadPair(pair))` or `Panicked(pair)`. Next
  to it is the imperative installation: a `RouteTable` object holding the
  installed routes, and the methods `Boot`, `InstallStaticMap`, `InstallStatic`
  (the loop) and `InstallPair` (one iteration). Each is proved to append exactly
  what the specification function says.
- `Dispatch` (`dispatch.dfy`): the request-time wrappers. A handler's
  observable behaviour is a trace of events: access-log lines, the hand-off to
  the file server, and the not-found reply.
- `BootCases` (`boot_cases.dfy`): concrete boots. They cover the malformed
  pairs, the empty path part, the trailing comma, a bad pair in the middle, the
  untrimmed ` data` component, and the two home-path choices.

The code does not trim the parts of a pair. In the static map
`"/s:/tmp/www, data:/tmp/data"` the second path part is ` data`, with its
leading space. It does not start with `/`, so with base path `/app` it is
installed at `/app/ data`, not `/app/data` (see `BootCases.UntrimmedParts`).

## Model

| member | source | states |
|---|---|---|
| GoStrings.TrimSpace | src/webd/main.go:67 | the trimmed map neither starts nor ends with white space; it is empty exactly when the map is all white space; an already trimmed map is unchanged |
| GoStrings.TrimLeftMeaning | src/webd/main.go:67 | trimming the front keeps a suffix that does not start with white space and drops only white space |
| GoStrings.TrimRightMeaning | src/webd/main.go:67 | trimming the back keeps a prefix that does not end with white space and drops only white space |
| GoStrings.TrimSpaceInfix | src/webd/main.go:67 | the trimmed map is the infix of the map between a white-space prefix and a white-space suffix |
| GoStrings.Split | src/webd/main.go:71-72 | a split always has at least one part |
| GoStrings.SplitCount | src/webd/main.go:71-73 | a split on `sep` has exactly one part more than the string has occurrences of `sep`; with `JoinSplit` this gives `Split("", sep) == [""]` |
| GoStrings.SplitPartsFree | src/webd/main.go:71-72 | no part of a split contains the separator |
| GoStrings.JoinSplit | src/webd/main.go:71-72 | joining the parts back with the separator gives the original string |
| GoStrings.SplitJoin | src/webd/main.go:71-72 | splitting separator-free parts joined by the separator gives the parts back |
| GoStrings.SplitNoSeparator | src/webd/main.go:72-73 | a string without the separator splits into itself alone |
| GoStrings.SplitAfterHead | src/webd/main.go:71-72 | a separator-free head followed by the separator is split off as the first part |
| StaticMap.ParsePairMeaning | src/webd/main.go:72-78 | a pair is malformed exactly when it does not hold exactly one ':'; its path part is empty exactly when that ':' comes first; otherwise path and directory are the two sides of the ':', untrimmed |
| StaticMap.Resolve | src/webd/main.go:77-80 | the installed path of a non-empty path part is never empty |
| StaticMap.ResolveMeaning | src/webd/main.go:77-80 | the installed path ends with the path part; it equals the path part exactly when that starts with '/'; otherwise it is the base path, one '/', then the path part |
| StaticMap.ResolveIsAbsolute | src/webd/main.go:77-80 | the installed path starts with '/' exactly when the path part does, or the base path is empty, or the base path starts with '/' |
| StaticMap.ResolveTwice | src/webd/main.go:77-80 | resolving again changes nothing exactly when the first resolution gave an absolute path; with a relative base path a second resolution would prefix it again |
| StaticMap.ParseFormatPair | src/webd/main.go:72-81 | a well-formed `path:dir` pair parses back to exactly that path and directory |
| StaticMap.SplitFormatMap | src/webd/main.go:71 | splitting a well-formed map on ',' gives back its pairs in order |
| StaticMap.FormatPairsSeparatorFree | src/webd/main.go:71 | the pairs of a well-formed map are its bindings' texts and contain no ',' |
| Boot.PairsOf | src/webd/main.go:67-71 | the trimmed map always yields at least one pair |
| Boot.ParseAll | src/webd/main.go:71-72 | every pair is parsed, one result per pair |
| Boot.StaticRoute | src/webd/main.go:77-83 | a static route's file server strips exactly the path the route is installed at and serves the pair's directory |
| Boot.InstallPairs | src/webd/main.go:71-85 | the loop installs at most one route per pair and never ends with the template-path abort |
| Boot.InstallPairsMeaning | src/webd/main.go:71-85 | the loop goes on exactly when every pair parses, and then installs one route per pair; route k is the static route of pair k; otherwise it stops at the first bad pair with that pair's outcome |
| Boot.InstallPairsOfPrefix | src/webd/main.go:71-85 | the routes installed for a good prefix of the pairs are exactly the first routes the whole loop installs |
| Boot.HomePath | src/webd/main.go:88-93 | the home path is never empty; it is the base path when that is set; it is "/" exactly when the base path is "" or "/" |
| Boot.StaticPlan | src/webd/main.go:66-85 | the static-map phase never ends with the template-path abort |
| Boot.StaticPlanMeaning | src/webd/main.go:66-85 | every route of the phase is a static route stripping its own path; the phase goes on exactly when the map is all white space or every pair parses |
| Boot.BootPlan | src/webd/main.go:59-64 | an empty template path ends the boot with nothing installed; a set template path never ends it that way |
| Boot.NoStaticMap | src/webd/main.go:67-69 | a blank static map installs no static route, and the boot goes on to the home and not-found routes |
| Boot.StopsAtFirstBadPair | src/webd/main.go:71-85 | the first bad pair ends the boot with its outcome; exactly the routes of the pairs before it stay installed, all static, and neither the home nor the not-found route is installed |
| Boot.ServingIff | src/webd/main.go:59-100 | the boot reaches the server start exactly when the template path is set and every pair parses; the table is then the static routes in order, the home route and the conditional not-found route |
| Boot.HomeAndNotFound | src/webd/main.go:88-100 | after a boot that reaches the server start, the home handler is installed exactly once, at the home path; the not-found handler is installed, at "/", exactly when the home path is not "/"; the two never share a path |
| Boot.DynamicAfterStatics | src/webd/main.go:94-100 | appending the dynamic routes to static routes gives one home route at the home path and a not-found route at "/" exactly when the home path is not "/" |
| Boot.StaticRoutesStripOwnPath | src/webd/main.go:83 | in every boot, each static route strips exactly the path it is installed at |
| Boot.WellFormedMapBoots | src/webd/main.go:66-100 | a well-formed, trimmed map installs one static route per binding in order, neither part trimmed, then the home and not-found routes, and the boot reaches the server start |
| Boot.RouteTable.Install | src/webd/main.go:83 | registering a route appends it after every route installed so far and changes nothing else |
| Boot.InstallPair | src/webd/main.go:72-83 | one iteration ends as the pair's outcome says and appends the pair's static route exactly when the pair parses |
| Boot.InstallStatic | src/webd/main.go:71-85 | the loop appends exactly the routes `InstallPairs` gives and ends with its outcome |
| Boot.InstallStaticMap | src/webd/main.go:66-85 | the static-map phase appends exactly the routes `StaticPlan` gives and ends with its outcome |
| Boot.Boot | src/webd/main.go:59-100 | the boot appends exactly the routes `BootPlan` gives, in order, and ends with its outcome |
| Dispatch.StaticHandlerLogsOnce | src/webd/main.go:28-31 | whatever handler it wraps, the static handler adds exactly one access-log line, with the request path, before all of that handler's events, and passes those events through unchanged and in order |
| Dispatch.ServeLogsOnceFirst | src/webd/main.go:107-124 | every installed handler writes exactly one access-log line for a request, first, carrying the request path; only a static route reaches the file server, with its own prefix and directory; only the not-found route replies not-found |
| Dispatch.RoutesServe | src/webd/main.go:83-99 | every route of a boot that reaches the server start logs a request once, first; a static route hands it to a file server that strips that route's own path |
| BootCases.NoColonIsMalformed | src/webd/main.go:72-76 | a pair without ':' is malformed |
| BootCases.TwoColonsIsMalformed | src/webd/main.go:72-76 | a pair with two ':' is malformed |
| BootCases.LeadingColonIsEmptyPath | src/webd/main.go:77-78 | a pair whose only ':' comes first has an empty path part |
| BootCases.MalformedPairs | src/webd/main.go:72-76 | "a:b:c" and "onlyonepart" are malformed |
| BootCases.EmptyPathPanics | src/webd/main.go:77-78 | the map ":dir" panics the boot before anything is installed |
| BootCases.TrailingCommaAborts | src/webd/main.go:71-76 | "a:b," aborts on the empty last pair, with the route of "a:b" (at "/app/a") already installed |
| BootCases.BadPairInTheMiddle | src/webd/main.go:71-85 | "/a:d1,bad,/b:d2" installs "/a" and aborts on "bad" without looking at "/b:d2" |
| BootCases.UntrimmedParts | src/webd/main.go:71-100 | "/s:/tmp/www, data:/tmp/data" with base path "/app" installs "/s", "/app/ data", the home route at "/app" and the not-found route at "/" |
| BootCases.TwoBindingsBoot | src/webd/main.go:71-100 | a map of two well-formed pairs installs their two static routes in order, then the dynamic routes |
| BootCases.RootHome | src/webd/main.go:88-100 | with base path "" or "/" and a blank map, only the home route at "/" is installed |
| BootCases.RelativeBasePath | src/webd/main.go:77-80 | with base path "app", "x" resolves to "app/x", and a second resolution would give "app/app/x" |

## Left out

- Configuration loading (`init`, flag parsing and config files, src/webd/main.go:33-54) is not modelled. The loaded template path, static map and base path are the parameters of `BootPlan` and `Boot`.
- `serve` and `http.ListenAndServe` (src/webd/main.go:104, 130-151) are network I/O. The outcome `Serving` stands for reaching the call to `serve`.
- The text of log lines is not modelled, nor are the boot's own log lines. At request time each access-log line is an event carrying only its site and the request path.
- `net/http`'s `ServeMux` is not modelled: its pattern matching and longest-prefix dispatch are missing. So is its panic when a pattern is registered twice, for example when a static path equals the home path or "/". Installation is an append to the route table, and duplicates are kept rather than making the boot panic.
- The behaviour of `http.StripPrefix`, `http.FileServer` and `http.Dir` is not modelled. The file server wrapped by a static route appears as one `ServeFiles(prefix, dir, path)` event. `http.NotFound` appears as one `NotFoundReply(path)` event.
- The panic on an empty path part is the outcome `Panicked(pair)`. The process crash that follows is not modelled.
- Concurrent request handling is not modelled. Dispatch is one request at a time, as pure functions.
- Dispatch.SessionGet: it returns a new pointer to an empty struct. Pointer identity is not modelled: the session is the only value of an empty record, so the function has no contract to state.
- `redisAddr` is declared and loaded but never used in the boot, so it is not modelled.
- Strings are sequences of code points, and invalid UTF-8 cannot be represented. The separators ',' and ':' and the tested '/' are ASCII and never occur inside a multi-byte UTF-8 sequence. So splitting code points gives the same parts as Go's byte-wise split, and comparing the first code point with '/' gives the same answer as comparing the first byte.
