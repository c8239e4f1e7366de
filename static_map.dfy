/** The static-mapping syntax `pair(,pair)*`, `pair := path:dir`, and the
    rule that anchors a relative path under the base path
    (src/webd/main.go, lines 71-81). */
module StaticMap {
  import opened GoStrings

  /** One path-to-directory binding taken from the static map. */
  datatype Binding = Binding(urlPath: string, directory: string)

  /** A binding whose path part is not empty, as every pair that parses
      has. */
  type PathBinding = b: Binding | b.urlPath != [] witness Binding("/", "")

  /** What one comma-separated pair turns into.  `Malformed` is the
      "bad static map pair" abort (the pair does not split on ':' into
      exactly two parts); `EmptyPath` is a pair whose path part is empty,
      on which the boot panics when it reads the path's first byte.  Both
      keep the pair's text. */
  datatype PairParse = Good(binding: PathBinding) | Malformed(pair: string) | EmptyPath(pair: string)

  /** Splits one pair on ':' without trimming either part. */
  function ParsePair(pair: string): (r: PairParse)
  {
    var parts := Split(pair, ':');
    if |parts| != 2 then Malformed(pair)
    else if parts[0] == [] then EmptyPath(pair)
    else Good(Binding(parts[0], parts[1]))
  }

  /** A pair is malformed exactly when it does not hold exactly one ':';
      its path part is empty exactly when that one ':' comes first; and
      otherwise it is `path:dir` with both parts taken as they stand. */
  lemma ParsePairMeaning(pair: string)
    ensures ParsePair(pair).Malformed? <==> multiset(pair)[':'] != 1
    ensures ParsePair(pair).EmptyPath? <==> multiset(pair)[':'] == 1 && pair[0] == ':'
    ensures !ParsePair(pair).Good? ==> ParsePair(pair).pair == pair
    ensures ParsePair(pair).Good? ==>
              var b := ParsePair(pair).binding;
              pair == b.urlPath + [':'] + b.directory && ':' !in b.urlPath && ':' !in b.directory
  {
    var parts := Split(pair, ':');
    JoinSplit(pair, ':');
    SplitCount(pair, ':');
    SplitPartsFree(pair, ':');
    if |parts| == 2 {
      if parts[0] == [] {
        assert pair[0] == ':';
      } else {
        assert pair[0] == parts[0][0];
      }
    }
  }

  /** The installed path of a pair's path part: a path whose first byte is
      '/' is absolute and kept; any other is put under `basePath`. */
  function Resolve(p: string, basePath: string): (r: string)
    requires p != []
    ensures r != []
  {
    if p[0] != '/' then basePath + "/" + p else p
  }

  /** The resolved path ends with `p`, and equals `p` exactly when `p` is
      absolute; a relative `p` is put after `basePath` and one '/'. */
  lemma ResolveMeaning(p: string, basePath: string)
    requires p != []
    ensures var r := Resolve(p, basePath);
            && |r| >= |p| && r[|r| - |p|..] == p
            && (r == p <==> p[0] == '/')
            && (p[0] != '/' ==> |r| == |basePath| + 1 + |p| && r[..|basePath|] == basePath && r[|basePath|] == '/')
  {
    var r := Resolve(p, basePath);
    if p[0] != '/' {
      assert |r| == |basePath| + 1 + |p|;
      assert r != p;
    }
  }

  /** A resolved path starts with '/' unless `p` is relative and the base
      path is neither empty nor absolute. */
  lemma ResolveIsAbsolute(p: string, basePath: string)
    requires p != []
    ensures Resolve(p, basePath)[0] == '/' <==> p[0] == '/' || basePath == [] || basePath[0] == '/'
  {
    ResolveMeaning(p, basePath);
  }

  /** Resolving twice is the same as resolving once exactly when the
      first resolution already gave an absolute path; with a relative
      base path such as "app", a second resolution would prefix it again.
      This is why each pair is resolved exactly once. */
  lemma {:induction false} ResolveTwice(p: string, basePath: string)
    requires p != []
    ensures Resolve(Resolve(p, basePath), basePath) == Resolve(p, basePath)
        <==> p[0] == '/' || basePath == [] || basePath[0] == '/'
  {
    ResolveIsAbsolute(p, basePath);
    ResolveMeaning(p, basePath);
    ResolveMeaning(Resolve(p, basePath), basePath);
  }

  /** A well-formed binding is one that the syntax can express: a
      non-empty path, and neither part containing ',' or ':'. */
  predicate WellFormed(b: Binding) {
    b.urlPath != [] && ':' !in b.urlPath && ',' !in b.urlPath && ':' !in b.directory && ',' !in b.directory
  }

  /** The text of one binding, `path:dir`. */
  function FormatPair(b: Binding): (s: string)
    ensures WellFormed(b) ==> ',' !in s
  {
    b.urlPath + [':'] + b.directory
  }

  /** The pair texts of a list of bindings, in order. */
  function FormatPairs(bs: seq<Binding>): (pairs: seq<string>)
    ensures |pairs| == |bs|
  {
    if bs == [] then [] else [FormatPair(bs[0])] + FormatPairs(bs[1..])
  }

  /** The text of a static map holding `bs`, comma-separated. */
  function FormatMap(bs: seq<Binding>): string
    requires |bs| >= 1
  {
    Join(FormatPairs(bs), ',')
  }

  /** Every pair of a formatted static map parses back to its binding,
      unchanged. */
  lemma ParseFormatPair(b: Binding)
    requires WellFormed(b)
    ensures ParsePair(FormatPair(b)) == Good(b)
  {
    SplitAfterHead(b.urlPath, b.directory, ':');
    SplitNoSeparator(b.directory, ':');
  }

  /** Splitting a formatted static map on ',' gives back its pairs in
      order. */
  lemma {:induction false} SplitFormatMap(bs: seq<Binding>)
    requires |bs| >= 1
    requires forall k :: 0 <= k < |bs| ==> WellFormed(bs[k])
    ensures Split(FormatMap(bs), ',') == FormatPairs(bs)
  {
    FormatPairsSeparatorFree(bs);
    SplitJoin(FormatPairs(bs), ',');
  }

  lemma {:induction false} FormatPairsSeparatorFree(bs: seq<Binding>)
    requires forall k :: 0 <= k < |bs| ==> WellFormed(bs[k])
    ensures forall k :: 0 <= k < |bs| ==> FormatPairs(bs)[k] == FormatPair(bs[k]) && ',' !in FormatPairs(bs)[k]
  {
    if bs != [] {
      FormatPairsSeparatorFree(bs[1..]);
      forall k | 1 <= k < |bs| ensures FormatPairs(bs)[k] == FormatPairs(bs[1..])[k - 1] {}
    }
  }
}
