/** The boot-time construction of the route table (src/webd/main.go,
    lines 56-105): the template-path check, the static-map loop, the home
    route and the conditional catch-all not-found route.

    `BootPlan` says what a boot installs and how it ends, as a function
    of the loaded configuration; `RouteTable` and `Boot` are the
    installation itself, step by step, proved to follow `BootPlan`. */
module Boot {
  import opened GoStrings
  import opened StaticMap

  /** What a route serves: static files from `dir` with `prefix` stripped
      from the request path, the dynamic home handler, or the not-found
      handler. */
  datatype Handler = Static(prefix: string, dir: string) | Home | NotFound

  datatype RouteEntry = Route(path: string, handler: Handler)

  datatype AbortReason = TemplateRequired | BadPair(pair: string)

  /** How a boot ends: it reaches the server start, it returns early
      after logging the reason, or it panics on a pair whose path part is
      empty.  Only `Serving` starts a server. */
  datatype BootOutcome = Serving | Aborted(reason: AbortReason) | Panicked(pair: string)

  /** The routes a boot (or a part of it) installs, in installation
      order, and how it ends. */
  datatype Plan = Plan(routes: seq<RouteEntry>, outcome: BootOutcome)

  /** The comma-separated pairs of the static map, after the whole map
      is trimmed; the pairs themselves are not trimmed. */
  function PairsOf(staticMap: string): (pairs: seq<string>)
    ensures |pairs| >= 1
  {
    Split(TrimSpace(staticMap), ',')
  }

  /** Each pair parsed on its own, in input order. */
  function ParseAll(pairs: seq<string>): (parsed: seq<PairParse>)
    ensures |parsed| == |pairs|
  {
    if pairs == [] then [] else [ParsePair(pairs[0])] + ParseAll(pairs[1..])
  }

  lemma {:induction false} ParseAllAt(pairs: seq<string>, k: nat)
    requires k < |pairs|
    ensures ParseAll(pairs)[k] == ParsePair(pairs[k])
  {
    if k > 0 {
      ParseAllAt(pairs[1..], k - 1);
    }
  }

  /** The static route of a binding: its path resolved once, and a file
      server for its directory that strips that same path. */
  function StaticRoute(b: PathBinding, basePath: string): (e: RouteEntry)
    ensures e.path != [] && e.handler == Static(e.path, b.directory)
  {
    var p := Resolve(b.urlPath, basePath);
    Route(p, Static(p, b.directory))
  }

  /** How one pair ends the boot: a malformed pair aborts it, an empty
      path part panics it, and a good pair lets it go on (`Serving`). */
  function PairOutcome(pp: PairParse): (o: BootOutcome)
    ensures o.Serving? <==> pp.Good?
    ensures pp.Malformed? ==> o.Aborted? && o.reason == BadPair(pp.pair)
    ensures pp.EmptyPath? ==> o.Panicked? && o.pair == pp.pair
  {
    match pp
    case Malformed(pair) => Aborted(BadPair(pair))
    case EmptyPath(pair) => Panicked(pair)
    case Good(_) => Serving
  }

  /** The static-map loop over the parsed pairs: one static route per
      good pair, in input order, until the first pair that is not good,
      which ends the boot with its outcome. */
  function InstallPairs(parsed: seq<PairParse>, basePath: string): (r: Plan)
    ensures |r.routes| <= |parsed|
    ensures r.outcome != Aborted(TemplateRequired)
    decreases |parsed|
  {
    if parsed == [] then Plan([], Serving)
    else if !parsed[0].Good? then Plan([], PairOutcome(parsed[0]))
    else
      var rest := InstallPairs(parsed[1..], basePath);
      Plan([StaticRoute(parsed[0].binding, basePath)] + rest.routes, rest.outcome)
  }

  /** The loop goes on exactly when every pair is good, and then installs
      one route per pair; otherwise it stops at the first pair that is not
      good, with that pair's outcome.  Route `k` is the static route of
      pair `k`, its path resolved once. */
  lemma {:induction false} InstallPairsMeaning(parsed: seq<PairParse>, basePath: string)
    ensures var r := InstallPairs(parsed, basePath);
            && (r.outcome.Serving? <==> forall k :: 0 <= k < |parsed| ==> parsed[k].Good?)
            && (r.outcome.Serving? ==> |r.routes| == |parsed|)
            && (forall k :: 0 <= k < |r.routes| ==>
                  parsed[k].Good? && r.routes[k] == StaticRoute(parsed[k].binding, basePath))
            && (!r.outcome.Serving? ==> |r.routes| < |parsed| && r.outcome == PairOutcome(parsed[|r.routes|]))
    decreases |parsed|
  {
    if parsed != [] && parsed[0].Good? {
      InstallPairsMeaning(parsed[1..], basePath);
      assert forall k :: 1 <= k < |parsed| ==> parsed[k] == parsed[1..][k - 1];
    }
  }

  /** The home path: `basePath`, or "/" when it is empty.  It is never
      empty, and it is "/" exactly when the base path is "" or "/". */
  function HomePath(basePath: string): (h: string)
    ensures h != []
    ensures h == "/" <==> basePath == [] || basePath == "/"
    ensures basePath != [] ==> h == basePath
  {
    if basePath == [] then "/" else basePath
  }

  /** The routes installed after the static ones: the dynamic handler at
      the home path, then the not-found handler at "/" unless the home
      path is "/" itself. */
  function DynamicRoutes(homePath: string): (rs: seq<RouteEntry>)
  {
    [Route(homePath, Home)] + if homePath != "/" then [Route("/", NotFound)] else []
  }

  /** The static-map phase: nothing when the trimmed map is empty,
      otherwise the static-map loop over its pairs. */
  function StaticPlan(staticMap: string, basePath: string): (r: Plan)
    ensures r.outcome != Aborted(TemplateRequired)
  {
    if TrimSpace(staticMap) == [] then Plan([], Serving) else InstallPairs(ParseAll(PairsOf(staticMap)), basePath)
  }

  /** Every route of the static-map phase is a static route that strips
      exactly the path it is installed at; the phase goes on exactly when
      the map is all white space or every pair parses. */
  lemma StaticPlanMeaning(staticMap: string, basePath: string)
    ensures var r := StaticPlan(staticMap, basePath);
            && (forall k :: 0 <= k < |r.routes| ==> r.routes[k].handler.Static? && r.routes[k].handler.prefix == r.routes[k].path)
            && (r.outcome.Serving? ==> AllSpace(staticMap) || forall k :: 0 <= k < |PairsOf(staticMap)| ==> ParseAll(PairsOf(staticMap))[k].Good?)
            && (AllSpace(staticMap) || (forall k :: 0 <= k < |PairsOf(staticMap)| ==> ParseAll(PairsOf(staticMap))[k].Good?) ==> r.outcome.Serving?)
  {
    if !AllSpace(staticMap) {
      InstallPairsMeaning(ParseAll(PairsOf(staticMap)), basePath);
    }
  }

  /** What the boot installs and how it ends, given the loaded
      configuration.  An empty template path ends it before anything is
      installed. */
  function BootPlan(templatePath: string, staticMap: string, basePath: string): (r: Plan)
    ensures templatePath == [] ==> r == Plan([], Aborted(TemplateRequired))
    ensures templatePath != [] ==> r.outcome != Aborted(TemplateRequired)
  {
    if templatePath == [] then Plan([], Aborted(TemplateRequired))
    else
      var statics := StaticPlan(staticMap, basePath);
      if !statics.outcome.Serving? then statics
      else Plan(statics.routes + DynamicRoutes(HomePath(basePath)), Serving)
  }

  /** A static map that is empty or all white space installs no static
      route, and the boot goes on to the home route. */
  lemma NoStaticMap(templatePath: string, staticMap: string, basePath: string)
    requires templatePath != [] && AllSpace(staticMap)
    ensures BootPlan(templatePath, staticMap, basePath) == Plan(DynamicRoutes(HomePath(basePath)), Serving)
  {
  }

  /** The first pair that does not parse ends the boot: a malformed pair
      aborts it, an empty path part panics.  The static routes of the
      pairs before it are already installed; neither the home route nor
      the not-found route is, and no server is started. */
  lemma {:induction false} StopsAtFirstBadPair(templatePath: string, staticMap: string, basePath: string, i: nat)
    requires templatePath != [] && !AllSpace(staticMap)
    requires i < |PairsOf(staticMap)|
    requires forall k :: 0 <= k < i ==> ParseAll(PairsOf(staticMap))[k].Good?
    requires !ParseAll(PairsOf(staticMap))[i].Good?
    ensures var parsed := ParseAll(PairsOf(staticMap));
            var r := BootPlan(templatePath, staticMap, basePath);
            && r.outcome == PairOutcome(parsed[i])
            && r.routes == InstallPairs(parsed[..i], basePath).routes
            && |r.routes| == i
            && forall k :: 0 <= k < |r.routes| ==> r.routes[k].handler.Static?
  {
    var parsed := ParseAll(PairsOf(staticMap));
    InstallPairsMeaning(parsed, basePath);
    InstallPairsOfPrefix(parsed, i, basePath);
  }

  /** Installing the pairs up to a point where all of them are good gives
      the same routes as the whole loop gives for them. */
  lemma {:induction false} InstallPairsOfPrefix(parsed: seq<PairParse>, i: nat, basePath: string)
    requires i <= |parsed|
    requires forall k :: 0 <= k < i ==> parsed[k].Good?
    ensures |InstallPairs(parsed, basePath).routes| >= i
    ensures InstallPairs(parsed[..i], basePath).routes == InstallPairs(parsed, basePath).routes[..i]
  {
    var whole := InstallPairs(parsed, basePath);
    var prefix := InstallPairs(parsed[..i], basePath);
    InstallPairsMeaning(parsed, basePath);
    InstallPairsMeaning(parsed[..i], basePath);
    assert forall k :: 0 <= k < i ==> parsed[..i][k] == parsed[k];
    assert prefix.outcome.Serving?;
  }

  /** The boot reaches the server start exactly when the template path is
      set and every pair of the trimmed static map parses; the route
      table is then the static routes in input order, the home route and
      the conditional not-found route. */
  lemma ServingIff(templatePath: string, staticMap: string, basePath: string)
    ensures BootPlan(templatePath, staticMap, basePath).outcome.Serving? ==>
              templatePath != [] && (AllSpace(staticMap) || forall k :: 0 <= k < |PairsOf(staticMap)| ==> ParseAll(PairsOf(staticMap))[k].Good?)
    ensures templatePath != [] && (AllSpace(staticMap) || forall k :: 0 <= k < |PairsOf(staticMap)| ==> ParseAll(PairsOf(staticMap))[k].Good?) ==>
              BootPlan(templatePath, staticMap, basePath).outcome.Serving?
    ensures var r := BootPlan(templatePath, staticMap, basePath);
            r.outcome.Serving? ==>
              var statics := if AllSpace(staticMap) then [] else InstallPairs(ParseAll(PairsOf(staticMap)), basePath).routes;
              r.routes == statics + DynamicRoutes(HomePath(basePath))
  {
    StaticPlanMeaning(staticMap, basePath);
  }

  /** After a boot that reaches the server start, the dynamic handler is
      installed exactly once, at the home path, and the not-found handler
      is installed at "/" exactly when the home path is not "/", so the
      two never share a path.  The boot does not check that a static route
      avoids "/" or the home path; ServeMux's panic on a pattern registered
      twice is not part of this model. */
  lemma HomeAndNotFound(templatePath: string, staticMap: string, basePath: string)
    requires BootPlan(templatePath, staticMap, basePath).outcome.Serving?
    ensures var rs := BootPlan(templatePath, staticMap, basePath).routes;
            && (forall k :: 0 <= k < |rs| && rs[k].handler.Home? ==> rs[k].path == HomePath(basePath))
            && (exists k :: 0 <= k < |rs| && rs[k] == Route(HomePath(basePath), Home))
            && (forall j, k :: 0 <= j < |rs| && 0 <= k < |rs| && rs[j].handler.Home? && rs[k].handler.Home? ==> j == k)
            && ((exists k :: 0 <= k < |rs| && rs[k].handler.NotFound?) <==> HomePath(basePath) != "/")
            && (forall k :: 0 <= k < |rs| && rs[k].handler.NotFound? ==> rs[k].path == "/")
            && (forall j, k :: 0 <= j < |rs| && 0 <= k < |rs| && rs[j].handler.Home? && rs[k].handler.NotFound?
                  ==> rs[j].path != rs[k].path)
  {
    StaticPlanMeaning(staticMap, basePath);
    DynamicAfterStatics(StaticPlan(staticMap, basePath).routes, HomePath(basePath));
  }

  /** Appending the home and not-found routes to routes that are all
      static: the home handler appears exactly once, at the home path, and
      the not-found handler appears, at "/", exactly when the home path
      is not "/". */
  lemma {:induction false} DynamicAfterStatics(statics: seq<RouteEntry>, home: string)
    requires forall k :: 0 <= k < |statics| ==> statics[k].handler.Static?
    ensures var rs := statics + DynamicRoutes(home);
            && (forall k :: 0 <= k < |rs| && rs[k].handler.Home? ==> rs[k].path == home)
            && (exists k :: 0 <= k < |rs| && rs[k] == Route(home, Home))
            && (forall j, k :: 0 <= j < |rs| && 0 <= k < |rs| && rs[j].handler.Home? && rs[k].handler.Home? ==> j == k)
            && ((exists k :: 0 <= k < |rs| && rs[k].handler.NotFound?) <==> home != "/")
            && (forall k :: 0 <= k < |rs| && rs[k].handler.NotFound? ==> rs[k].path == "/")
            && (forall j, k :: 0 <= j < |rs| && 0 <= k < |rs| && rs[j].handler.Home? && rs[k].handler.NotFound?
                  ==> rs[j].path != rs[k].path)
  {
    var dyn := DynamicRoutes(home);
    var rs := statics + dyn;
    var n := |statics|;
    assert forall k :: n <= k < |rs| ==> rs[k] == dyn[k - n];
    assert rs[n] == Route(home, Home);
    if home != "/" {
      assert rs[n + 1].handler.NotFound?;
    }
  }

  /** Every static route, whether the boot reaches the server start or
      not, strips exactly the path it is installed at. */
  lemma StaticRoutesStripOwnPath(templatePath: string, staticMap: string, basePath: string)
    ensures var rs := BootPlan(templatePath, staticMap, basePath).routes;
            forall k :: 0 <= k < |rs| && rs[k].handler.Static? ==> rs[k].handler.prefix == rs[k].path
  {
    StaticPlanMeaning(staticMap, basePath);
    var statics := StaticPlan(staticMap, basePath).routes;
    var dyn := DynamicRoutes(HomePath(basePath));
    assert forall k :: |statics| <= k < |statics + dyn| ==> (statics + dyn)[k] == dyn[k - |statics|];
  }

  /** The static routes of a list of well-formed bindings, in order. */
  function BindingRoutes(bs: seq<Binding>, basePath: string): (rs: seq<RouteEntry>)
    requires forall k :: 0 <= k < |bs| ==> WellFormed(bs[k])
    ensures |rs| == |bs|
  {
    if bs == [] then [] else assert WellFormed(bs[0]); [StaticRoute(bs[0], basePath)] + BindingRoutes(bs[1..], basePath)
  }

  /** A well-formed static map, as written by `FormatMap`, installs one
      static route per binding, in order, each binding's path resolved
      once and neither part trimmed, followed by the home and not-found
      routes. */
  lemma {:induction false} WellFormedMapBoots(templatePath: string, bs: seq<Binding>, basePath: string)
    requires templatePath != [] && |bs| >= 1
    requires forall k :: 0 <= k < |bs| ==> WellFormed(bs[k])
    requires Trimmed(FormatMap(bs))
    ensures BootPlan(templatePath, FormatMap(bs), basePath)
         == Plan(BindingRoutes(bs, basePath) + DynamicRoutes(HomePath(basePath)), Serving)
  {
    var m := FormatMap(bs);
    SplitFormatMap(bs);
    FormatPairsSeparatorFree(bs);
    assert ':' in FormatPairs(bs)[0];
    assert !AllSpace(m) by {
      JoinContains(FormatPairs(bs), ',', ':');
    }
    assert PairsOf(m) == FormatPairs(bs);
    forall k | 0 <= k < |bs| ensures ParseAll(FormatPairs(bs))[k] == Good(bs[k]) {
      ParseFormatPair(bs[k]);
      ParseAllAt(FormatPairs(bs), k);
    }
    InstallGoodPairs(ParseAll(FormatPairs(bs)), bs, basePath);
  }

  /** A character of the first part is a character of the joined text. */
  lemma JoinContains(parts: seq<string>, sep: char, c: char)
    requires |parts| >= 1 && c in parts[0]
    ensures c in Join(parts, sep)
  {
  }

  lemma {:induction false} InstallGoodPairs(parsed: seq<PairParse>, bs: seq<Binding>, basePath: string)
    requires |parsed| == |bs|
    requires forall k :: 0 <= k < |bs| ==> WellFormed(bs[k]) && parsed[k] == Good(bs[k])
    ensures InstallPairs(parsed, basePath) == Plan(BindingRoutes(bs, basePath), Serving)
  {
    if bs != [] {
      InstallGoodPairs(parsed[1..], bs[1..], basePath);
    }
  }

  /** The process-wide route registry: the routes installed so far, in
      installation order. */
  class RouteTable {
    var routes: seq<RouteEntry>

    constructor ()
      ensures routes == []
    {
      routes := [];
    }

    /** Registers `handler` for `path`, after every route installed so
        far. */
    method Install(path: string, handler: Handler)
      modifies this
      ensures routes == old(routes) + [Route(path, handler)]
    {
      routes := routes + [Route(path, handler)];
    }
  }

  /** The static-map loop: installs one static route per pair, in input
      order, and stops at the first pair that does not parse, with the
      routes of the pairs before it left installed.  It appends exactly
      what `InstallPairs` says and ends as it says. */
  method InstallStatic(mux: RouteTable, pairs: seq<string>, basePath: string) returns (outcome: BootOutcome)
    modifies mux
    ensures outcome == InstallPairs(ParseAll(pairs), basePath).outcome
    ensures mux.routes == old(mux.routes) + InstallPairs(ParseAll(pairs), basePath).routes
  {
    ghost var parsed := ParseAll(pairs);
    ghost var installed: seq<RouteEntry> := [];
    var i := 0;
    assert parsed[i..] == parsed;
    while i < |pairs|
      invariant 0 <= i <= |pairs|
      invariant mux.routes == old(mux.routes) + installed
      invariant InstallPairs(parsed, basePath)
             == var rest := InstallPairs(parsed[i..], basePath); Plan(installed + rest.routes, rest.outcome)
    {
      ParseAllAt(pairs, i);
      InstallPairsFrom(parsed, i, basePath);
      ghost var before := mux.routes;
      outcome := InstallPair(mux, pairs[i], basePath);
      if !outcome.Serving? {
        return;
      }
      ghost var e := StaticRoute(parsed[i].binding, basePath);
      ghost var rest := InstallPairs(parsed[i + 1..], basePath);
      assert installed + ([e] + rest.routes) == (installed + [e]) + rest.routes;
      installed := installed + [e];
      i := i + 1;
    }
    assert parsed[i..] == [];
    return Serving;
  }

  /** One iteration of the static-map loop: splits the pair on ':' and
      either installs its static route or ends the boot with the pair's
      outcome, leaving the route table as it was. */
  method InstallPair(mux: RouteTable, pair: string, basePath: string) returns (outcome: BootOutcome)
    modifies mux
    ensures outcome == PairOutcome(ParsePair(pair))
    ensures ParsePair(pair).Good? ==> mux.routes == old(mux.routes) + [StaticRoute(ParsePair(pair).binding, basePath)]
    ensures !ParsePair(pair).Good? ==> mux.routes == old(mux.routes)
  {
    var pp := ParsePair(pair);
    match pp
    case Malformed(pair) =>
      return Aborted(BadPair(pair));
    case EmptyPath(pair) =>
      return Panicked(pair);
    case Good(b) =>
      var p := Resolve(b.urlPath, basePath);
      mux.Install(p, Static(p, b.directory));
      return Serving;
  }

  /** One step of the static-map loop, from the `i`th pair on. */
  lemma InstallPairsFrom(parsed: seq<PairParse>, i: nat, basePath: string)
    requires i < |parsed|
    ensures !parsed[i].Good? ==> InstallPairs(parsed[i..], basePath) == Plan([], PairOutcome(parsed[i]))
    ensures parsed[i].Good? ==>
              var rest := InstallPairs(parsed[i + 1..], basePath);
              InstallPairs(parsed[i..], basePath) == Plan([StaticRoute(parsed[i].binding, basePath)] + rest.routes, rest.outcome)
  {
    assert parsed[i..][0] == parsed[i];
    assert parsed[i..][1..] == parsed[i + 1..];
  }

  /** The static-map phase (lines 66-85): trims the whole map once and,
      unless nothing is left, runs the static-map loop over its
      comma-separated pairs.  It appends exactly what `StaticPlan` says
      and ends as it says. */
  method InstallStaticMap(mux: RouteTable, staticMap: string, basePath: string) returns (outcome: BootOutcome)
    modifies mux
    ensures outcome == StaticPlan(staticMap, basePath).outcome
    ensures mux.routes == old(mux.routes) + StaticPlan(staticMap, basePath).routes
  {
    var trimmed := TrimSpace(staticMap);
    if trimmed == [] {
      return Serving;
    }
    outcome := InstallStatic(mux, Split(trimmed, ','), basePath);
  }

  /** The boot sequence: checks the template path, installs one static
      route per pair of the trimmed static map (stopping at the first
      pair that does not parse), then the home route and, unless the home
      path is "/", the not-found route.  It appends exactly what
      `BootPlan` says to the route table and ends as `BootPlan` says. */
  method Boot(mux: RouteTable, templatePath: string, staticMap: string, basePath: string) returns (outcome: BootOutcome)
    modifies mux
    ensures outcome == BootPlan(templatePath, staticMap, basePath).outcome
    ensures mux.routes == old(mux.routes) + BootPlan(templatePath, staticMap, basePath).routes
  {
    if templatePath == [] {
      return Aborted(TemplateRequired);
    }
    outcome := InstallStaticMap(mux, staticMap, basePath);
    if !outcome.Serving? {
      return;
    }
    ghost var statics := StaticPlan(staticMap, basePath).routes;
    var homePath := HomePath(basePath);
    mux.Install(homePath, Home);
    if homePath != "/" {
      mux.Install("/", NotFound);
    }
    assert mux.routes == old(mux.routes) + (statics + DynamicRoutes(homePath));
    return Serving;
  }
}
