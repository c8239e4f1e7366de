/** The request-time wrappers around the installed handlers
    (src/webd/main.go, lines 23-31 and 107-128): the static handler that
    logs and delegates, the not-found handler, and the session trap in
    front of the home handler.

    What a handler does to a request is an event trace: the access-log
    lines it writes, the delegation to the file server, and the
    not-found reply. */
module Dispatch {
  import opened Boot

  datatype Request = Request(path: string)

  /** The per-request session: an empty record. */
  datatype Session = Session

  /** Which wrapper wrote an access-log line. */
  datatype LogSite = StaticSite | HomeSite | NotFoundSite

  /** One observable effect of a handler: an access-log line carrying the
      request path, the file server's answer (with `prefix` stripped,
      from directory `dir`), or the standard not-found reply. */
  datatype Event = AccessLog(site: LogSite, url: string) | ServeFiles(prefix: string, dir: string, url: string) | NotFoundReply(url: string)

  /** The static handler: it holds the handler it wraps. */
  datatype StaticHandler = StaticHandler(inner: Request -> seq<Event>)

  /** The wrapped handler installed for a static route: files from `dir`
      with `prefix` stripped from the request path. */
  function FileServer(prefix: string, dir: string): Request -> seq<Event>
  {
    (r: Request) => [ServeFiles(prefix, dir, r.path)]
  }

  /** The static handler writes one access-log line with the request path
      and then hands the request, unchanged, to the handler it wraps,
      whose effects follow in order. */
  function ServeStatic(h: StaticHandler, r: Request): (es: seq<Event>)
  {
    [AccessLog(StaticSite, r.path)] + h.inner(r)
  }

  /** The number of access-log lines in a trace. */
  function LogCount(es: seq<Event>): nat
  {
    if es == [] then 0 else (if es[0].AccessLog? then 1 else 0) + LogCount(es[1..])
  }

  lemma {:induction false} LogCountAppend(a: seq<Event>, b: seq<Event>)
    ensures LogCount(a + b) == LogCount(a) + LogCount(b)
  {
    if a == [] {
      assert a + b == b;
    } else {
      assert (a + b)[0] == a[0];
      assert (a + b)[1..] == a[1..] + b;
      LogCountAppend(a[1..], b);
    }
  }

  /** Whatever handler it wraps, the static handler adds exactly one
      access-log line to that handler's trace, before all of its events,
      and leaves those events as they are, in order. */
  lemma StaticHandlerLogsOnce(h: StaticHandler, r: Request)
    ensures var es := ServeStatic(h, r);
            && |es| == |h.inner(r)| + 1
            && es[0] == AccessLog(StaticSite, r.path)
            && (forall k :: 0 <= k < |h.inner(r)| ==> es[k + 1] == h.inner(r)[k])
            && LogCount(es) == LogCount(h.inner(r)) + 1
  {
    LogCountAppend([AccessLog(StaticSite, r.path)], h.inner(r));
  }

  /** The session for a request: always a new empty session. */
  function SessionGet(r: Request): Session
  {
    Session
  }

  /** Calls the three-argument handler with the request unchanged and the
      session fetched for it, and does nothing else. */
  function TrapHandle(r: Request, handler: (Request, Session) -> seq<Event>): (es: seq<Event>)
  {
    var s := SessionGet(r);
    handler(r, s)
  }

  /** The dynamic home handler only writes its access-log line. */
  function HandlerHome(r: Request, s: Session): (es: seq<Event>)
  {
    [AccessLog(HomeSite, r.path)]
  }

  /** The not-found handler writes its access-log line and then sends the
      standard not-found reply for the same path. */
  function NotFoundHandler(r: Request): (es: seq<Event>)
  {
    [AccessLog(NotFoundSite, r.path)] + [NotFoundReply(r.path)]
  }

  /** The log site of each installed handler. */
  function SiteOf(h: Handler): LogSite
  {
    match h
    case Static(_, _) => StaticSite
    case Home => HomeSite
    case NotFound => NotFoundSite
  }

  /** Serving a request with a route's handler, as the boot installed it:
      a static route's handler wraps a file server for its directory with
      its own path stripped; the home route's closure traps a session for
      the home handler; the catch-all route is the not-found handler. */
  function Serve(h: Handler, r: Request): (es: seq<Event>)
  {
    match h
    case Static(prefix, dir) => ServeStatic(StaticHandler(FileServer(prefix, dir)), r)
    case Home => TrapHandle(r, HandlerHome)
    case NotFound => NotFoundHandler(r)
  }

  /** Every installed handler writes exactly one access-log line for a
      request, before anything else, from its own site and carrying the
      request path.  Only a static route reaches the file server, and then
      with its own prefix and directory; only the not-found route sends
      the not-found reply. */
  lemma {:induction false} ServeLogsOnceFirst(h: Handler, r: Request)
    ensures var es := Serve(h, r);
            && |es| >= 1 && es[0] == AccessLog(SiteOf(h), r.path)
            && LogCount(es) == 1
            && (forall k :: 1 <= k < |es| ==> !es[k].AccessLog?)
            && ((exists k :: 0 <= k < |es| && es[k].ServeFiles?) <==> h.Static?)
            && (forall k :: 0 <= k < |es| && es[k].ServeFiles? ==> es[k] == ServeFiles(h.prefix, h.dir, r.path))
            && ((exists k :: 0 <= k < |es| && es[k].NotFoundReply?) <==> h.NotFound?)
  {
    var es := Serve(h, r);
    match h
    case Static(prefix, dir) =>
      StaticHandlerLogsOnce(StaticHandler(FileServer(prefix, dir)), r);
      assert es[1] == ServeFiles(prefix, dir, r.path);
    case Home =>
      assert es == [AccessLog(HomeSite, r.path)];
    case NotFound =>
      LogCountAppend([AccessLog(NotFoundSite, r.path)], [NotFoundReply(r.path)]);
      assert es[1].NotFoundReply?;
  }

  /** Every route of a boot that reaches the server start serves a request
      by logging it once, first; a request served by a static route goes
      to the file server with that route's own path as the prefix to
      strip. */
  lemma RoutesServe(templatePath: string, staticMap: string, basePath: string, k: nat, r: Request)
    requires BootPlan(templatePath, staticMap, basePath).outcome.Serving?
    requires k < |BootPlan(templatePath, staticMap, basePath).routes|
    ensures var e := BootPlan(templatePath, staticMap, basePath).routes[k];
            var es := Serve(e.handler, r);
            && es[0] == AccessLog(SiteOf(e.handler), r.path)
            && LogCount(es) == 1
            && (forall j :: 1 <= j < |es| ==> !es[j].AccessLog?)
            && (e.handler.Static? ==> es == [AccessLog(StaticSite, r.path), ServeFiles(e.path, e.handler.dir, r.path)])
  {
    var e := BootPlan(templatePath, staticMap, basePath).routes[k];
    ServeLogsOnceFirst(e.handler, r);
    if e.handler.Static? {
      StaticRoutesStripOwnPath(templatePath, staticMap, basePath);
    }
  }
}
