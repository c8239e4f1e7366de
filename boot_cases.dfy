/** Concrete boots, worked out from the general model: the malformed
    pairs, the empty path part, the trailing comma, a bad pair in the
    middle of the map, the untrimmed pair parts, and the two choices of
    home path.

    A lemma about one literal map takes it as a parameter pinned by its
    `requires`, so that the solver does not unfold `BootPlan` on the
    literal before the lemma's own steps have split it. */
module BootCases {
  import opened GoStrings
  import opened StaticMap
  import opened Boot

  /** A pair without ':' is one part, and so malformed. */
  lemma NoColonIsMalformed(pair: string)
    requires ':' !in pair
    ensures ParsePair(pair) == Malformed(pair)
  {
    SplitNoSeparator(pair, ':');
  }

  /** A pair with two ':' is three parts, and so malformed. */
  lemma TwoColonsIsMalformed(a: string, b: string, c: string)
    requires ':' !in a && ':' !in b && ':' !in c
    ensures ParsePair(a + [':'] + b + [':'] + c) == Malformed(a + [':'] + b + [':'] + c)
  {
    assert a + [':'] + b + [':'] + c == a + [':'] + (b + [':'] + c);
    SplitAfterHead(a, b + [':'] + c, ':');
    SplitAfterHead(b, c, ':');
    SplitNoSeparator(c, ':');
  }

  /** A pair starting with its only ':' has an empty path part. */
  lemma LeadingColonIsEmptyPath(dir: string)
    requires ':' !in dir
    ensures ParsePair([':'] + dir) == EmptyPath([':'] + dir)
  {
    assert [':'] + dir == [] + [':'] + dir;
    SplitAfterHead([], dir, ':');
    SplitNoSeparator(dir, ':');
  }

  /** "a:b:c" has two ':' and "onlyonepart" none: both are malformed. */
  lemma MalformedPairs(p: string, q: string)
    requires p == "a:b:c" && q == "onlyonepart"
    ensures ParsePair(p) == Malformed(p)
    ensures ParsePair(q) == Malformed(q)
  {
    assert p == "a" + [':'] + "b" + [':'] + "c";
    TwoColonsIsMalformed("a", "b", "c");
    NoColonIsMalformed(q);
  }

  /** ":dir" splits into two parts, the first of them empty: the boot
      panics on it before installing anything else. */
  lemma EmptyPathPanics(m: string)
    requires m == ":dir"
    ensures ParsePair(m) == EmptyPath(m)
    ensures BootPlan("tpl", m, "/app") == Plan([], Panicked(m))
  {
    assert m == [':'] + "dir";
    LeadingColonIsEmptyPath("dir");
    assert Trimmed(m) && !AllSpace(m);
    SplitNoSeparator(m, ',');
    assert ParseAll([m]) == [ParsePair(m)] + ParseAll([]);
  }

  /** A trailing comma leaves an empty last pair, which is malformed: the
      route of the pair before it stays installed, and the boot aborts
      without the home or not-found route. */
  lemma TrailingCommaAborts(m: string)
    requires m == "a:b,"
    ensures BootPlan("tpl", m, "/app") == Plan([Route("/app/a", Static("/app/a", "b"))], Aborted(BadPair("")))
  {
    assert Trimmed(m) && !AllSpace(m);
    assert m == "a:b" + [','] + [];
    SplitAfterHead("a:b", [], ',');
    var pairs := ["a:b", ""];
    assert PairsOf(m) == pairs;
    var b := Binding("a", "b");
    assert "a:b" == FormatPair(b);
    ParseFormatPair(b);
    NoColonIsMalformed("");
    ParseAllAt(pairs, 0);
    ParseAllAt(pairs, 1);
    var parsed := ParseAll(pairs);
    assert parsed == [Good(b), Malformed("")];
    GoodThenBad(b, Malformed(""), "/app");
    assert Resolve("a", "/app") == "/app/a";
  }

  /** A good pair followed by a bad one installs the good pair's route and
      ends with the bad pair's outcome. */
  lemma GoodThenBad(b: PathBinding, bad: PairParse, basePath: string)
    requires !bad.Good?
    ensures InstallPairs([Good(b), bad], basePath) == Plan([StaticRoute(b, basePath)], PairOutcome(bad))
  {
    assert [Good(b), bad][1..] == [bad];
  }

  /** A bad pair in the middle stops the boot there: the pair after it is
      never looked at. */
  lemma BadPairInTheMiddle(m: string)
    requires m == "/a:d1,bad,/b:d2"
    ensures BootPlan("tpl", m, "") == Plan([Route("/a", Static("/a", "d1"))], Aborted(BadPair("bad")))
  {
    var pairs := ["/a:d1", "bad", "/b:d2"];
    MiddlePairs(m);
    MiddleParsed(pairs);
    var parsed := ParseAll(pairs);
    GoodThenBadThenAny(Binding("/a", "d1"), Malformed("bad"), parsed[2], "");
    assert parsed == [Good(Binding("/a", "d1")), Malformed("bad"), parsed[2]];
  }

  lemma MiddlePairs(m: string)
    requires m == "/a:d1,bad,/b:d2"
    ensures !AllSpace(m) && PairsOf(m) == ["/a:d1", "bad", "/b:d2"]
  {
    assert !IsSpace(m[0]);
    assert Trimmed(m);
    var tail := "bad" + [','] + "/b:d2";
    assert m == "/a:d1" + [','] + tail;
    SplitAfterHead("/a:d1", tail, ',');
    SplitAfterHead("bad", "/b:d2", ',');
    SplitNoSeparator("/b:d2", ',');
  }

  lemma MiddleParsed(pairs: seq<string>)
    requires pairs == ["/a:d1", "bad", "/b:d2"]
    ensures var parsed := ParseAll(pairs);
            |parsed| == 3 && parsed[0] == Good(Binding("/a", "d1")) && parsed[1] == Malformed("bad")
  {
    assert pairs[0] == FormatPair(Binding("/a", "d1"));
    ParseFormatPair(Binding("/a", "d1"));
    NoColonIsMalformed(pairs[1]);
    ParseAllAt(pairs, 0);
    ParseAllAt(pairs, 1);
  }

  /** After a good pair and a bad one, whatever follows is not looked at. */
  lemma GoodThenBadThenAny(b: PathBinding, bad: PairParse, next: PairParse, basePath: string)
    requires !bad.Good?
    ensures InstallPairs([Good(b), bad, next], basePath) == Plan([StaticRoute(b, basePath)], PairOutcome(bad))
  {
    assert [Good(b), bad, next][1..] == [bad, next];
  }

  /** The pair parts are not trimmed: " data" stays " data", is relative,
      and is installed under the base path as "/app/ data".  With base
      path "/app" the home route is "/app" and the not-found route takes
      "/". */
  lemma UntrimmedParts(m: string)
    requires m == "/s:/tmp/www, data:/tmp/data"
    ensures BootPlan("tpl", m, "/app")
         == Plan([Route("/s", Static("/s", "/tmp/www")), Route("/app/ data", Static("/app/ data", "/tmp/data")),
                  Route("/app", Home), Route("/", NotFound)], Serving)
  {
    var b0 := Binding("/s", "/tmp/www");
    var b1 := Binding(" data", "/tmp/data");
    UntrimmedText(m);
    TwoBindingsBoot("tpl", b0, b1, "/app");
    UntrimmedResolved();
  }

  lemma UntrimmedText(m: string)
    requires m == "/s:/tmp/www, data:/tmp/data"
    ensures m == FormatPair(Binding("/s", "/tmp/www")) + [','] + FormatPair(Binding(" data", "/tmp/data"))
    ensures Trimmed(m)
  {
    assert "/s:/tmp/www" == "/s" + [':'] + "/tmp/www";
    assert " data:/tmp/data" == " data" + [':'] + "/tmp/data";
    assert m == "/s:/tmp/www" + [','] + " data:/tmp/data";
  }

  lemma UntrimmedResolved()
    ensures StaticRoute(Binding("/s", "/tmp/www"), "/app") == Route("/s", Static("/s", "/tmp/www"))
    ensures StaticRoute(Binding(" data", "/tmp/data"), "/app") == Route("/app/ data", Static("/app/ data", "/tmp/data"))
    ensures DynamicRoutes(HomePath("/app")) == [Route("/app", Home), Route("/", NotFound)]
  {
  }

  /** A map of two well-formed pairs installs their two static routes, in
      order, and the boot goes on to the home route. */
  lemma TwoBindingsBoot(templatePath: string, b0: PathBinding, b1: PathBinding, basePath: string)
    requires templatePath != [] && WellFormed(b0) && WellFormed(b1)
    requires Trimmed(FormatPair(b0) + [','] + FormatPair(b1))
    ensures BootPlan(templatePath, FormatPair(b0) + [','] + FormatPair(b1), basePath)
         == Plan([StaticRoute(b0, basePath), StaticRoute(b1, basePath)] + DynamicRoutes(HomePath(basePath)), Serving)
  {
    var bs := [b0, b1];
    assert bs[1..] == [b1] && bs[1..][1..] == [];
    assert FormatPairs(bs[1..][1..]) == [];
    assert FormatPairs(bs[1..]) == [FormatPair(b1)];
    var pairs := FormatPairs(bs);
    assert pairs == [FormatPair(b0), FormatPair(b1)];
    assert pairs[1..] == [FormatPair(b1)];
    assert Join(pairs[1..], ',') == FormatPair(b1);
    assert FormatMap(bs) == FormatPair(b0) + [','] + FormatPair(b1);
    WellFormedMapBoots(templatePath, bs, basePath);
    assert BindingRoutes(bs, basePath) == [StaticRoute(b0, basePath), StaticRoute(b1, basePath)];
  }

  /** With an empty base path the home route is "/" and no not-found route
      is installed; with base path "/" the same.  A blank static map
      installs nothing else. */
  lemma RootHome(blank: string)
    requires AllSpace(blank)
    ensures BootPlan("tpl", blank, "") == Plan([Route("/", Home)], Serving)
    ensures BootPlan("tpl", blank, "/") == Plan([Route("/", Home)], Serving)
  {
    NoStaticMap("tpl", blank, "");
    NoStaticMap("tpl", blank, "/");
  }

  /** With a relative base path such as "app", a relative pair path is put
      under it once, and resolving the result again would prefix it a
      second time. */
  lemma RelativeBasePath()
    ensures Resolve("x", "app") == "app/x"
    ensures Resolve(Resolve("x", "app"), "app") == "app/app/x"
  {
  }
}
